/** The Songs page: the song catalog, the song that is current, the playing
    flag, the favorite ids, the user's libraries and playlists, and the search
    box. Selection, play/pause, wrap-around next/previous over the whole
    catalog, favorite toggling and the search filter. */
module Songs {
  import opened Wrappers
  import opened Strings
  import opened Seqs
  import opened CreateModals

  /** One row of the `songs` table, with the fields the page reads. */
  datatype Song = Song(
    id: int,
    title: string,
    artist: Option<string>,
    album: Option<string>,
    isKaraokeTrack: bool)

  /** The answer of the catalog query made on mount. */
  datatype FetchResult = Rows(data: seq<Song>) | FetchError(message: string)

  // ---------------------------------------------------------------------
  // Index arithmetic

  /** `songs.findIndex(song => song.id === id)`: the first position holding `id`, or -1. */
  function FindIndex(songs: seq<Song>, id: int): (r: int)
    ensures -1 <= r < |songs|
    ensures r == -1 <==> forall k :: 0 <= k < |songs| ==> songs[k].id != id
    ensures r >= 0 ==> songs[r].id == id && forall k :: 0 <= k < r ==> songs[k].id != id
  {
    if songs == [] then -1
    else if songs[0].id == id then 0
    else
      var r := FindIndex(songs[1..], id);
      if r == -1 then -1 else r + 1
  }

  /** `(currentIndex + 1) % songs.length`: the next position, wrapping from the
      last to the first; a missing current (-1) lands on the first. */
  function NextIndex(i: int, n: int): (r: int)
    requires n > 0 && -1 <= i < n
    ensures 0 <= r < n
    ensures i == n - 1 ==> r == 0
    ensures i < n - 1 ==> r == i + 1
  {
    (i + 1) % n
  }

  /** `currentIndex === 0 ? songs.length - 1 : currentIndex - 1`: the previous
      position, wrapping from the first to the last. A missing current (-1)
      gives -2, which is no position at all. */
  function PreviousIndex(i: int, n: int): (r: int)
    requires n > 0 && -1 <= i < n
    ensures 0 <= i ==> 0 <= r < n && r == (i - 1 + n) % n
    ensures i == -1 ==> r == -2
  {
    if i == 0 then n - 1 else i - 1
  }

  /** `songs[j]`, which is `undefined` outside the array. */
  function At(songs: seq<Song>, j: int): (r: Option<Song>)
    ensures r.Some? <==> 0 <= j < |songs|
    ensures r.Some? ==> r.value == songs[j]
  {
    if 0 <= j < |songs| then Some(songs[j]) else None
  }

  /** The song `handleNext` makes current when `current` is current. */
  function NextSong(songs: seq<Song>, current: Song): (next: Song)
    requires songs != []
    ensures next in songs
  {
    songs[NextIndex(FindIndex(songs, current.id), |songs|)]
  }

  /** What `handlePrevious` makes current when `current` is current:
      `None` (the `undefined` of `songs[-2]`) when `current`'s id is not in the catalog. */
  function PreviousSong(songs: seq<Song>, current: Song): (previous: Option<Song>)
    requires songs != []
    ensures previous.Some? ==> previous.value in songs
  {
    At(songs, PreviousIndex(FindIndex(songs, current.id), |songs|))
  }

  /** No id occurs twice in the catalog. */
  predicate UniqueIds(songs: seq<Song>)
  {
    forall j, k :: 0 <= j < k < |songs| ==> songs[j].id != songs[k].id
  }

  /** `next` applied `k` times, starting from `current`. */
  function NextSteps(songs: seq<Song>, current: Song, k: nat): Song
    requires songs != []
    decreases k
  {
    if k == 0 then current else NextSteps(songs, NextSong(songs, current), k - 1)
  }

  /** With unique ids, the song at position `j` is found at position `j`. */
  lemma FindIndexOfMember(songs: seq<Song>, j: int)
    requires UniqueIds(songs) && 0 <= j < |songs|
    ensures FindIndex(songs, songs[j].id) == j
  {
  }

  /** `next` from position `j` goes to position `j + 1`, or from the last
      position back to the first. */
  lemma NextFromPosition(songs: seq<Song>, j: int)
    requires UniqueIds(songs) && 0 <= j < |songs|
    ensures NextSong(songs, songs[j]) == songs[if j == |songs| - 1 then 0 else j + 1]
    ensures NextSong(songs, songs[j]) == songs[NextIndex(j, |songs|)]
  {
    FindIndexOfMember(songs, j);
  }

  /** The catalog position reached from position `j` after `m` presses of
      `next`, in a catalog of `n` songs. */
  function RingPosition(j: int, m: nat, n: int): (r: int)
    requires n > 0 && 0 <= j < n
    ensures 0 <= r < n
    decreases m
  {
    if m == 0 then j else RingPosition(NextIndex(j, n), m - 1, n)
  }

  /** Presses short of the end of the catalog move forward one position each. */
  lemma {:induction false} RingForward(j: int, m: nat, n: int)
    requires n > 0 && 0 <= j && j + m < n
    ensures RingPosition(j, m, n) == j + m
    decreases m
  {
    if m > 0 {
      RingForward(j + 1, m - 1, n);
    }
  }

  /** `a + b` presses are `a` presses followed by `b` presses. */
  lemma {:induction false} RingAdd(j: int, a: nat, b: nat, n: int)
    requires n > 0 && 0 <= j < n
    ensures RingPosition(j, a + b, n) == RingPosition(RingPosition(j, a, n), b, n)
    decreases a
  {
    if a > 0 {
      RingAdd(NextIndex(j, n), a - 1, b, n);
    }
  }

  /** `n` presses come back to the starting position. */
  lemma RingCycle(j: int, n: int)
    requires n > 0 && 0 <= j < n
    ensures RingPosition(j, n, n) == j
  {
    var toLast := n - 1 - j;
    RingForward(j, toLast, n);
    RingAdd(j, toLast, 1, n);
    assert RingPosition(j, n - j, n) == 0;
    RingAdd(j, n - j, j, n);
    if j > 0 {
      RingForward(0, j, n);
    }
  }

  /** From catalog position `j`, `m` presses of `next` reach the song at
      `RingPosition(j, m, n)`. */
  lemma {:induction false} NextStepsAt(songs: seq<Song>, j: int, m: nat)
    requires UniqueIds(songs) && 0 <= j < |songs|
    ensures NextSteps(songs, songs[j], m) == songs[RingPosition(j, m, |songs|)]
    decreases m
  {
    if m > 0 {
      var next := NextIndex(j, |songs|);
      NextFromPosition(songs, j);
      assert NextSteps(songs, songs[j], m) == NextSteps(songs, songs[next], m - 1);
      NextStepsAt(songs, next, m - 1);
    }
  }

  /** On a catalog of `n` songs with unique ids, `n` presses of `next` from any
      song of the catalog come back to that song. */
  lemma NextCycles(songs: seq<Song>, j: int)
    requires UniqueIds(songs) && 0 <= j < |songs|
    ensures NextSteps(songs, songs[j], |songs|) == songs[j]
  {
    NextStepsAt(songs, j, |songs|);
    RingCycle(j, |songs|);
  }

  /** `previous` right after `next` restores the song that was current. */
  lemma PreviousAfterNext(songs: seq<Song>, j: int)
    requires UniqueIds(songs) && 0 <= j < |songs|
    ensures PreviousSong(songs, NextSong(songs, songs[j])) == Some(songs[j])
  {
    var n := |songs|;
    NextFromPosition(songs, j);
    FindIndexOfMember(songs, (j + 1) % n);
    if j < n - 1 {
      assert (j + 1) % n == j + 1;
    }
  }

  /** `next` right after `previous` restores the song that was current. */
  lemma NextAfterPrevious(songs: seq<Song>, j: int)
    requires UniqueIds(songs) && 0 <= j < |songs|
    ensures PreviousSong(songs, songs[j]).Some?
    ensures NextSong(songs, PreviousSong(songs, songs[j]).value) == songs[j]
  {
    var n := |songs|;
    FindIndexOfMember(songs, j);
    var p := if j == 0 then n - 1 else j - 1;
    FindIndexOfMember(songs, p);
  }

  /** When the current id is not in the catalog, `next` lands on the first song
      and `previous` yields no song at all. */
  lemma MissingCurrent(songs: seq<Song>, current: Song)
    requires songs != []
    requires forall k :: 0 <= k < |songs| ==> songs[k].id != current.id
    ensures NextSong(songs, current) == songs[0]
    ensures PreviousSong(songs, current) == None
  {
  }

  // ---------------------------------------------------------------------
  // Favorites

  /** The filter predicate `id => id !== songId`. */
  function Other(songId: int): int -> bool
  {
    id => id != songId
  }

  /** The list `toggleFavorite(songId)` stores: without every occurrence of a
      favorite id, or with an absent id appended at the end. */
  function ToggledFavorites(favorites: seq<int>, songId: int): seq<int>
  {
    if songId in favorites then Filter(favorites, Other(songId)) else favorites + [songId]
  }

  /** Toggling an absent id appends it; toggling a present id removes every
      occurrence and keeps every other id, in order, as often as before. */
  lemma ToggleFavoriteEffect(favorites: seq<int>, songId: int)
    ensures songId !in favorites ==> ToggledFavorites(favorites, songId) == favorites + [songId]
    ensures songId in favorites ==>
      && songId !in ToggledFavorites(favorites, songId)
      && IsSubsequence(ToggledFavorites(favorites, songId), favorites)
      && forall x :: x != songId ==>
           multiset(ToggledFavorites(favorites, songId))[x] == multiset(favorites)[x]
  {
    if songId in favorites {
      FilterSpec(favorites, Other(songId));
    }
  }

  /** Toggling an absent id twice gives back exactly the original list. */
  lemma ToggleAbsentTwice(favorites: seq<int>, songId: int)
    requires songId !in favorites
    ensures ToggledFavorites(ToggledFavorites(favorites, songId), songId) == favorites
  {
    var keep := Other(songId);
    FilterAppend(favorites, [songId], keep);
    FilterKeepsAll(favorites, keep);
  }

  // ---------------------------------------------------------------------
  // Search

  /** `s && s.toLowerCase().includes(q)` for an optional field `s`: absent or
      empty fields are falsy and never match. */
  predicate FieldMatches(field: Option<string>, lowerQuery: string)
  {
    field.Some? && field.value != "" && Includes(ToLower(field.value), lowerQuery)
  }

  /** The filter predicate of `filteredSongs`. */
  predicate Matches(song: Song, query: string)
  {
    var q := ToLower(query);
    Includes(ToLower(song.title), q) || FieldMatches(song.artist, q) || FieldMatches(song.album, q)
  }

  /** `filteredSongs`: the songs matching the search query. */
  function FilteredSongs(songs: seq<Song>, query: string): (r: seq<Song>)
    ensures IsSubsequence(r, songs)
    ensures forall s :: s in r ==> Matches(s, query)
    ensures forall s :: multiset(r)[s] == if Matches(s, query) then multiset(songs)[s] else 0
  {
    FilterSpec(songs, s => Matches(s, query));
    Filter(songs, s => Matches(s, query))
  }

  /** The empty query keeps the whole catalog. */
  lemma EmptyQueryKeepsAll(songs: seq<Song>)
    ensures FilteredSongs(songs, "") == songs
  {
    forall i | 0 <= i < |songs| ensures Matches(songs[i], "") {
      IncludesEmpty(ToLower(songs[i].title));
    }
    FilterKeepsAll(songs, s => Matches(s, ""));
  }

  /** The match is case-insensitive in the query. */
  lemma MatchIgnoresQueryCase(song: Song, query: string)
    ensures Matches(song, query) <==> Matches(song, ToLower(query))
  {
    var q := ToLower(query);
    assert ToLower(q) == q;
  }

  // ---------------------------------------------------------------------
  // The page state

  class SongsPage {
    var songs: seq<Song>
    var currentSong: Option<Song>
    var isPlaying: bool
    var libraries: seq<Collection>
    var playlists: seq<Collection>
    var favoriteSongs: seq<int>
    var searchQuery: string

    constructor ()
      ensures songs == [] && currentSong == None && !isPlaying
      ensures libraries == [] && playlists == [] && favoriteSongs == [] && searchQuery == ""
    {
      songs, currentSong, isPlaying := [], None, false;
      libraries, playlists, favoriteSongs := [], [], [];
      searchQuery := "";
    }

    /** `fetchSongs`: a successful query replaces the catalog, an error leaves it
        as it was (only a notice is shown). */
    method FetchSongs(response: FetchResult)
      modifies this`songs
      ensures songs == if response.Rows? then response.data else old(songs)
    {
      if response.Rows? {
        songs := response.data;
      }
    }

    /** The mount effect's reads of the stored libraries, playlists and
        favorites: each saved value that exists replaces the initial one. */
    method RestoreSaved(
      savedLibraries: Option<seq<Collection>>,
      savedPlaylists: Option<seq<Collection>>,
      savedFavorites: Option<seq<int>>)
      modifies this`libraries, this`playlists, this`favoriteSongs
      ensures libraries == if savedLibraries.Some? then savedLibraries.value else old(libraries)
      ensures playlists == if savedPlaylists.Some? then savedPlaylists.value else old(playlists)
      ensures favoriteSongs == if savedFavorites.Some? then savedFavorites.value else old(favoriteSongs)
    {
      if savedLibraries.Some? { libraries := savedLibraries.value; }
      if savedPlaylists.Some? { playlists := savedPlaylists.value; }
      if savedFavorites.Some? { favoriteSongs := savedFavorites.value; }
    }

    /** `handlePlayPause(song)`: a song other than the current one (by id) becomes
        current and plays; otherwise, with a current song, the playing flag flips;
        with no current song and no new one, nothing changes. */
    method PlayPause(song: Option<Song>)
      modifies this`currentSong, this`isPlaying
      ensures song.Some? && (old(currentSong).None? || song.value.id != old(currentSong).value.id) ==>
        currentSong == song && isPlaying
      ensures song.Some? && old(currentSong).Some? && song.value.id == old(currentSong).value.id ==>
        currentSong == old(currentSong) && isPlaying == !old(isPlaying)
      ensures song.None? ==>
        currentSong == old(currentSong) &&
        isPlaying == (if old(currentSong).Some? then !old(isPlaying) else old(isPlaying))
    {
      if song.Some? && (currentSong.None? || song.value.id != currentSong.value.id) {
        currentSong := song;
        isPlaying := true;
      } else if currentSong.Some? {
        isPlaying := !isPlaying;
      }
    }

    /** `handleNext`: without a current song or with an empty catalog nothing
        changes; otherwise the next song of the whole catalog (not the filtered
        view) becomes current and plays. */
    method Next()
      modifies this`currentSong, this`isPlaying
      ensures old(currentSong).None? || songs == [] ==>
        currentSong == old(currentSong) && isPlaying == old(isPlaying)
      ensures old(currentSong).Some? && songs != [] ==>
        currentSong == Some(NextSong(songs, old(currentSong).value)) && isPlaying
    {
      if currentSong.None? || |songs| == 0 {
        return;
      }
      var currentIndex := FindIndex(songs, currentSong.value.id);
      var nextIndex := (currentIndex + 1) % |songs|;
      currentSong := Some(songs[nextIndex]);
      isPlaying := true;
    }

    /** `handlePrevious`: without a current song or with an empty catalog nothing
        changes; otherwise the previous song of the whole catalog becomes current
        and plays, except that a current id missing from the catalog leaves no
        current song (while the flag still becomes true). */
    method Previous()
      modifies this`currentSong, this`isPlaying
      ensures old(currentSong).None? || songs == [] ==>
        currentSong == old(currentSong) && isPlaying == old(isPlaying)
      ensures old(currentSong).Some? && songs != [] ==>
        currentSong == PreviousSong(songs, old(currentSong).value) && isPlaying
    {
      if currentSong.None? || |songs| == 0 {
        return;
      }
      var currentIndex := FindIndex(songs, currentSong.value.id);
      var prevIndex := if currentIndex == 0 then |songs| - 1 else currentIndex - 1;
      currentSong := At(songs, prevIndex);
      isPlaying := true;
    }

    /** `toggleFavorite(songId)`. */
    method ToggleFavorite(songId: int)
      modifies this`favoriteSongs
      ensures favoriteSongs == ToggledFavorites(old(favoriteSongs), songId)
    {
      if songId in favoriteSongs {
        favoriteSongs := Filter(favoriteSongs, Other(songId));
      } else {
        favoriteSongs := favoriteSongs + [songId];
      }
    }

    /** The search box's `onChange`. */
    method SetSearchQuery(query: string)
      modifies this`searchQuery
      ensures searchQuery == query
    {
      searchQuery := query;
    }

    /** The songs handed to the list: the catalog filtered by the current query. */
    function Visible(): (shown: seq<Song>)
      reads this
      ensures IsSubsequence(shown, songs)
      ensures forall s :: s in shown ==> Matches(s, searchQuery)
    {
      FilteredSongs(songs, searchQuery)
    }

    /** `onLibraryCreated`: the new library goes after the existing ones. */
    method AddLibrary(library: Collection)
      modifies this`libraries
      ensures libraries == old(libraries) + [library]
    {
      libraries := libraries + [library];
    }

    /** `onPlaylistCreated`: the new playlist goes after the existing ones. */
    method AddPlaylist(playlist: Collection)
      modifies this`playlists
      ensures playlists == old(playlists) + [playlist]
    {
      playlists := playlists + [playlist];
    }
  }
}
