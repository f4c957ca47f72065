/** The Karaoke Studio page: a fixed catalog of four tracks, a current track and
    a playing flag driven by `playTrack` and `togglePlay`, filter fields that are
    stored but never applied, and the label and colour helpers of the list. */
module Karaoke {
  import opened Wrappers
  import opened Strings

  datatype Track = Track(
    id: int,
    title: string,
    artist: string,
    genre: string,
    difficulty: string,
    duration: string,
    rating: real,
    isMicfightEligible: bool,
    hasBackingVocals: bool)

  /** `karaokeTracks`. */
  const KaraokeTracks: seq<Track> := [
    Track(1, "Bohemian Rhapsody", "Queen", "rock", "expert", "5:55", 4.8, true, true),
    Track(2, "Sweet Caroline", "Neil Diamond", "classic", "easy", "3:21", 4.9, false, true),
    Track(3, "Don't Stop Believin'", "Journey", "rock", "medium", "4:11", 4.7, true, false),
    Track(4, "I Will Always Love You", "Whitney Houston", "r&b", "hard", "4:31", 4.6, true, false)
  ]

  /** `karaokeGenres`. */
  const KaraokeGenres: seq<string> := ["all", "pop", "rock", "country", "r&b", "hip-hop", "classic"]

  /** `difficultyLevels`. */
  const DifficultyLevels: seq<string> := ["all", "easy", "medium", "hard", "expert"]

  /** The catalog ids are 1 to 4, all distinct. */
  lemma CatalogIds()
    ensures |KaraokeTracks| == 4
    ensures forall i :: 0 <= i < 4 ==> KaraokeTracks[i].id == i + 1
    ensures forall i, j :: 0 <= i < j < |KaraokeTracks| ==> KaraokeTracks[i].id != KaraokeTracks[j].id
  {
  }

  // ---------------------------------------------------------------------
  // Labels and colours

  /** `s.charAt(0).toUpperCase() + s.slice(1)`; the empty string stays empty. */
  function Capitalize(s: string): (r: string)
    ensures |r| == |s|
    ensures s != [] ==> r[0] == UpperChar(s[0]) && r[1..] == s[1..]
  {
    if s == [] then "" else [UpperChar(s[0])] + s[1..]
  }

  /** Capitalising twice is capitalising once, and a capitalised label still
      reads as the same word when compared case-insensitively. */
  lemma CapitalizeIdempotentAndCaseless(s: string)
    ensures Capitalize(Capitalize(s)) == Capitalize(s)
    ensures ToLower(Capitalize(s)) == ToLower(s)
  {
    var r := Capitalize(s);
    if s != [] {
      assert UpperChar(UpperChar(s[0])) == UpperChar(s[0]);
      assert LowerChar(UpperChar(s[0])) == LowerChar(s[0]);
      assert ToLower(r)[0] == ToLower(s)[0];
    }
  }

  /** `getDifficultyColor(level)`. */
  function DifficultyColor(level: string): string
  {
    match level
    case "easy" => "text-green-600 bg-green-100"
    case "medium" => "text-yellow-600 bg-yellow-100"
    case "hard" => "text-orange-600 bg-orange-100"
    case "expert" => "text-red-600 bg-red-100"
    case _ => "text-gray-600 bg-gray-100"
  }

  const DefaultColor: string := "text-gray-600 bg-gray-100"

  /** The four levels get four distinct colours, none of them the gray default,
      and every other value (including "all") gets the default. */
  lemma DifficultyColorsDistinct(level: string)
    ensures var named := ["easy", "medium", "hard", "expert"];
      forall i, j :: 0 <= i < j < 4 ==> DifficultyColor(named[i]) != DifficultyColor(named[j])
    ensures level in {"easy", "medium", "hard", "expert"} <==> DifficultyColor(level) != DefaultColor
  {
  }

  /** `currentTrack?.id === track.id`. */
  predicate IsHighlighted(current: Option<Track>, track: Track)
  {
    current.Some? && current.value.id == track.id
  }

  /** One rendered row of the track list. */
  datatype Row = Row(track: Track, highlighted: bool)

  /** `karaokeTracks.map(...)`: the whole catalog, in order, whatever the filter
      fields hold (they are not inputs), each row highlighted as the current track. */
  function Rows(current: Option<Track>): (rows: seq<Row>)
    ensures |rows| == |KaraokeTracks|
    ensures forall i :: 0 <= i < |rows| ==> rows[i].track == KaraokeTracks[i]
    ensures forall i :: 0 <= i < |rows| ==> (rows[i].highlighted <==> IsHighlighted(current, KaraokeTracks[i]))
  {
    seq(|KaraokeTracks|, i requires 0 <= i < |KaraokeTracks| => Row(KaraokeTracks[i], IsHighlighted(current, KaraokeTracks[i])))
  }

  /** With catalog track `k` current exactly row `k` is highlighted; with nothing
      current no row is. */
  lemma {:induction false} HighlightedRows(current: Option<Track>, k: int)
    requires current.None? || (0 <= k < |KaraokeTracks| && current == Some(KaraokeTracks[k]))
    ensures forall i :: 0 <= i < |KaraokeTracks| ==>
      (Rows(current)[i].highlighted <==> current.Some? && i == k)
  {
    CatalogIds();
  }

  /** `currentTrack?.duration || '0:00'`. */
  function DurationLabel(current: Option<Track>): (r: string)
    ensures current.None? ==> r == "0:00"
    ensures current.Some? && current.value.duration != "" ==> r == current.value.duration
    ensures current.Some? && current.value.duration == "" ==> r == "0:00"
  {
    if current.Some? && current.value.duration != "" then current.value.duration else "0:00"
  }

  // ---------------------------------------------------------------------
  // The page state

  class KaraokePage {
    var isPlaying: bool
    var currentTrack: Option<Track>
    var searchTerm: string
    var selectedGenre: string
    var difficulty: string

    constructor ()
      ensures !isPlaying && currentTrack == None
      ensures searchTerm == "" && selectedGenre == "all" && difficulty == "all"
    {
      isPlaying, currentTrack := false, None;
      searchTerm, selectedGenre, difficulty := "", "all", "all";
    }

    /** The rows the page renders. */
    function ShownRows(): seq<Row>
      reads this
    {
      Rows(currentTrack)
    }

    /** `playTrack(track)`: the track becomes current and starts playing. */
    method PlayTrack(track: Track)
      modifies this`currentTrack, this`isPlaying
      ensures currentTrack == Some(track) && isPlaying
    {
      currentTrack := Some(track);
      isPlaying := true;
    }

    /** `togglePlay`: flips the flag; with no current track it then plays the first
        catalog track, whose `setIsPlaying(true)` is the last write. */
    method TogglePlay()
      modifies this`currentTrack, this`isPlaying
      ensures old(currentTrack).Some? ==> currentTrack == old(currentTrack) && isPlaying == !old(isPlaying)
      ensures old(currentTrack).None? ==> currentTrack == Some(KaraokeTracks[0]) && isPlaying
    {
      isPlaying := !isPlaying;
      if currentTrack.None? {
        PlayTrack(KaraokeTracks[0]);
      }
    }

    /** The search field's `onChange`. */
    method SetSearchTerm(value: string)
      modifies this`searchTerm
      ensures searchTerm == value
    {
      searchTerm := value;
    }

    /** The genre selector's `onChange`. */
    method SetSelectedGenre(value: string)
      modifies this`selectedGenre
      ensures selectedGenre == value
    {
      selectedGenre := value;
    }

    /** The difficulty selector's `onChange`. */
    method SetDifficulty(value: string)
      modifies this`difficulty
      ensures difficulty == value
    {
      difficulty := value;
    }
  }

  /** Whatever press it starts from, `togglePlay` on the fresh page plays the
      first track, and a second press pauses it without changing the track. */
  method TogglePlayTwiceFromStart() returns (first: Option<Track>, playingAfterFirst: bool, playingAfterSecond: bool)
    ensures first == Some(KaraokeTracks[0]) && playingAfterFirst && !playingAfterSecond
  {
    var page := new KaraokePage();
    page.TogglePlay();
    first, playingAfterFirst := page.currentTrack, page.isPlaying;
    page.TogglePlay();
    assert page.currentTrack == first;
    playingAfterSecond := page.isPlaying;
  }
}
