# MICFIGHTS front-end logic in Dafny

MICFIGHTS is a React single-page app for musicians, karaoke fans and venues.
Most of the app is markup and notification stubs. This project models the
parts that hold logic and proves properties about them:

- the song page's player selection, wrap-around next/previous, favourites and search;
- the song player's control state: shuffle, the repeat cycle, karaoke mode, volume and mute, the time label, the percentages and the size and shape classes;
- the karaoke page's play/toggle state machine, its track list and its label and colour helpers;
- the admin mass-upload queue: file ids, the per-file status after an upload (and the file name a processed entry loses), files dropped during an upload, and the song title taken from the file name;
- the user menu's display name and initials, and its dropdown;
- the route guard's decision;
- the create-playlist and create-library dialogs;
- the landing page's drag-and-drop canvas;
- the subscription page's plans, billing switch, prices and the yearly savings line;
- the funding card's support amount and funded percentage;
- the platform fee slider.

Components that update state in place become classes. Their fields are the
component's state variables and their methods are its handlers. Each method
states the whole new state. Pure helpers become functions, with lemmas relating
them.

JavaScript built-ins are modelled explicitly in module `Strings`. These are
`split`/`join` on one character, `includes`, ASCII `toLowerCase`/`toUpperCase`,
`trim`'s whitespace set, decimal `parseInt` (`None` for `NaN`), integer
rendering and `padStart`. JavaScript's `%` truncates toward zero; this is
`DynamicPlayer.JsRem`. `Math.round` is half up. Numbers are `int` for counts,
cents and ids, and `real` where the code divides.

Backend calls, the clock, `Math.random` and file readers are inputs:

- `Songs.FetchResult` is a query's outcome;
- `MassUpload.Outcome` is the storage and database outcome for one file;
- `Home.Load` is one reader callback with its clock reading and random draws;
- `now` stands for the `Date.now()` reading;
- `hasUser` and `user` stand for the signed-in user.

## Model

| member | source | states |
|---|---|---|
| Strings.Split | src/components/admin/MassUpload.jsx:73 | `split` on one character gives at least one part, no part contains the separator, and joining the parts gives back the string |
| Strings.SplitAtSeparator | src/components/auth/UserProfile.jsx:55 | splitting `a + c + rest`, with no `c` in `a`, gives `a` followed by the parts of `rest` |
| Strings.SplitWithoutSeparator | src/components/auth/UserProfile.jsx:55 | a string without the separator splits into itself alone |
| Strings.Includes | src/pages/Songs.jsx:109 | `includes` holds iff the pattern occurs at some position |
| Strings.ToLower | src/pages/Songs.jsx:109 | `toLowerCase` keeps the length and lower-cases each character |
| Strings.ToUpper | src/components/auth/UserProfile.jsx:62 | `toUpperCase` keeps the length and upper-cases each character |
| Strings.Trim | src/components/songs/CreatePlaylistModal.jsx:11 | `trim` gives a string no longer than its input that neither starts nor ends with whitespace |
| Strings.TrimEmptyIffAllSpace | src/components/songs/CreatePlaylistModal.jsx:11 | `name.trim()` is empty iff every character is JavaScript whitespace |
| Strings.NatToString | src/components/songs/DynamicPlayer.jsx:32 | a number renders as decimal digits, with no leading zero and exactly one digit below 10 |
| Strings.IntToString | src/pages/Home.jsx:46 | `String(i)` is non-empty and starts with a minus sign iff `i` is negative |
| Strings.PadStart | src/components/songs/DynamicPlayer.jsx:32 | `padStart` keeps a string as wide as the width, and otherwise fills it to exactly that width with the pad character in front |
| Strings.TwoDigits | src/components/songs/DynamicPlayer.jsx:32 | a number below 100 padded to width 2 with '0' is two digits that read back as the number |
| Strings.ParseIntOfDigits | src/pages/Home.jsx:51 | `parseInt` of a string of decimal digits gives the number they denote |
| Strings.ParseInt | src/pages/Home.jsx:51 | `parseInt` skips leading whitespace, takes an optional sign and the longest run of digits, and gives `NaN` (`None`) when there is none; its values are stated by `ParseIntOfDigits`, `ParseIntOfNegativeNumeral` and `ParseIntOfIntToString` |
| Strings.ParseIntOfNegativeNumeral | src/pages/Home.jsx:51 | `parseInt` of a minus sign before decimal digits gives the negated number |
| Strings.ParseIntOfIntToString | src/pages/Home.jsx:51 | `parseInt(String(n))` gives back `n`, for every integer including negatives |
| Strings.DigitsOfNatToString | src/components/songs/DynamicPlayer.jsx:32 | the digits of a rendered number read back as that number |
| Seqs.FilterSpec | src/pages/Songs.jsx:108-112 | `filter` gives a subsequence of exactly the kept elements, counted with multiplicity |
| Seqs.Filter | src/pages/Songs.jsx:108-112 | `filter` as a definition; what it promises is `FilterSpec` |
| Songs.FindIndex | src/pages/Songs.jsx:83 | `findIndex` gives -1 iff no song has the id, and otherwise the first index holding it |
| Songs.NextIndex | src/pages/Songs.jsx:84 | `(i + 1) % n` wraps the last index to 0, and index -1 to 0 as well |
| Songs.PreviousIndex | src/pages/Songs.jsx:92 | stepping back wraps index 0 to `n - 1` and otherwise gives `i - 1`; a missing current id (-1) gives -2 |
| Songs.At | src/pages/Songs.jsx:93 | `songs[j]` is a song iff `j` is a valid index, and `undefined` otherwise |
| Songs.NextSong | src/pages/Songs.jsx:81-87 | the song next makes current is a catalog song |
| Songs.PreviousSong | src/pages/Songs.jsx:89-95 | the song previous makes current, when there is one, is a catalog song |
| Songs.NextSteps | src/pages/Songs.jsx:81-87 | `k` presses of next, as a definition; where they land is `NextStepsAt` |
| Songs.FindIndexOfMember | src/pages/Songs.jsx:83 | with unique ids, the index found for the j-th song's id is `j` |
| Songs.NextFromPosition | src/pages/Songs.jsx:81-87 | from catalog position `j`, next moves to `j + 1`, or from the last song to the first |
| Songs.RingPosition | src/pages/Songs.jsx:84 | `m` steps of `(i + 1) % n` from a valid index stay a valid index |
| Songs.RingForward | src/pages/Songs.jsx:84 | `m` steps that do not pass the end of the list move `m` positions forward |
| Songs.RingAdd | src/pages/Songs.jsx:84 | `a + b` steps equal `a` steps followed by `b` steps |
| Songs.RingCycle | src/pages/Songs.jsx:84 | `n` steps on an `n`-song ring return to the starting index |
| Songs.NextStepsAt | src/pages/Songs.jsx:81-87 | with unique ids, `m` presses of next from the j-th song reach the song at `j` advanced `m` steps round the ring |
| Songs.NextCycles | src/pages/Songs.jsx:83-85 | on a list with unique ids, `n` presses of next return to the song you started on |
| Songs.PreviousAfterNext | src/pages/Songs.jsx:81-95 | previous after next restores the song you started on |
| Songs.NextAfterPrevious | src/pages/Songs.jsx:81-95 | previous from a present song gives a song, and next after it restores the song you started on |
| Songs.MissingCurrent | src/pages/Songs.jsx:83-93 | if the current id is not in the list, next lands on the first song and previous on no song |
| Songs.ToggleFavoriteEffect | src/pages/Songs.jsx:97-106 | an absent id is appended at the end; a present id has every occurrence removed, and nothing else changes |
| Songs.ToggleAbsentTwice | src/pages/Songs.jsx:97-106 | toggling an absent id twice restores the exact original list |
| Songs.ToggledFavorites | src/pages/Songs.jsx:97-106 | the toggled favourites, as a definition; what they hold is `ToggleFavoriteEffect` |
| Songs.FilteredSongs | src/pages/Songs.jsx:108-112 | the search result is an order-preserving subsequence. A song is kept iff it matches, and each matching song keeps its multiplicity |
| Songs.EmptyQueryKeepsAll | src/pages/Songs.jsx:108-112 | the empty query keeps the whole catalog |
| Songs.MatchIgnoresQueryCase | src/pages/Songs.jsx:108-112 | a song matches a query iff it matches the query lower-cased |
| Songs.FieldMatches | src/pages/Songs.jsx:110-111 | an optional artist or album field matches only when present and non-empty and it contains the lower-cased query, lower-cased |
| Songs.Matches | src/pages/Songs.jsx:108-112 | a song matches when its title, artist or album contains the query, ignoring case; see `MatchIgnoresQueryCase` |
| Songs.SongsPage.Visible | src/pages/Songs.jsx:108-112 | the listed songs are a subsequence of the catalog, every one matching the current query |
| Songs.SongsPage.constructor | src/pages/Songs.jsx:16-26 | initial state: empty catalog, no current song, not playing, no collections or favourites, empty query |
| Songs.SongsPage.FetchSongs | src/pages/Songs.jsx:55-66 | a successful query replaces the catalog; an error leaves it unchanged |
| Songs.SongsPage.RestoreSaved | src/pages/Songs.jsx:32-41 | each saved list that exists replaces the matching state list; a missing one leaves it |
| Songs.SongsPage.PlayPause | src/pages/Songs.jsx:68-79 | a different or first song becomes current and plays. The current song, or none given, flips `isPlaying` and keeps the song; with nothing current and nothing given, nothing changes |
| Songs.SongsPage.Next | src/pages/Songs.jsx:81-87 | with a current song and a non-empty catalog, the next catalog song becomes current and plays; otherwise nothing changes |
| Songs.SongsPage.Previous | src/pages/Songs.jsx:89-95 | with a current song and a non-empty catalog, the previous catalog song, or none for a missing id, becomes current and `isPlaying` is set; otherwise nothing changes |
| Songs.SongsPage.ToggleFavorite | src/pages/Songs.jsx:97-106 | the favourites become the toggled list |
| Songs.SongsPage.SetSearchQuery | src/pages/Songs.jsx:135 | the search field stores the typed query |
| Songs.SongsPage.AddLibrary | src/pages/Songs.jsx:200 | a created library is appended to the libraries |
| Songs.SongsPage.AddPlaylist | src/pages/Songs.jsx:209 | a created playlist is appended to the playlists |
| CreateModals.NewCollection | src/components/songs/CreatePlaylistModal.jsx:10-16 | no record iff the name is blank or whitespace only; otherwise a record with the untrimmed name, no songs and the clock reading as id |
| CreateModals.IsBlank | src/components/songs/CreatePlaylistModal.jsx:11 | `!name.trim()`; blank iff all whitespace is `TrimEmptyIffAllSpace` |
| CreateModals.PlaylistModal.constructor | src/components/songs/CreatePlaylistModal.jsx:7 | the name starts empty |
| CreateModals.PlaylistModal.SetName | src/components/songs/CreatePlaylistModal.jsx:41 | typing stores the name |
| CreateModals.PlaylistModal.HandleCreate | src/components/songs/CreatePlaylistModal.jsx:10-19 | a playlist is emitted iff the name is not blank, and the dialog closes iff one was emitted |
| CreateModals.PlaylistModal.KeyPress | src/components/songs/CreatePlaylistModal.jsx:43 | Enter does what the Create button does; any other key does nothing |
| CreateModals.LibraryModal.constructor | src/components/songs/CreateLibraryModal.jsx:7 | the name starts empty |
| CreateModals.LibraryModal.SetName | src/components/songs/CreateLibraryModal.jsx:41 | typing stores the name |
| CreateModals.LibraryModal.HandleCreate | src/components/songs/CreateLibraryModal.jsx:10-19 | a library is emitted iff the name is not blank, and the dialog closes iff one was emitted |
| CreateModals.LibraryModal.KeyPress | src/components/songs/CreateLibraryModal.jsx:43 | Enter does what the Create button does; any other key does nothing |
| DynamicPlayer.FormatTimeFields | src/components/songs/DynamicPlayer.jsx:30-31 | for `t >= 0`, the minutes are `floor(t) div 60` and the seconds are `floor(t) mod 60` |
| DynamicPlayer.JsRem | src/components/songs/DynamicPlayer.jsx:31 | JavaScript's `%` on numbers: truncating division, as a definition; its bounds are `JsRemSixty` |
| DynamicPlayer.JsRemSixty | src/components/songs/DynamicPlayer.jsx:31 | `time % 60` has the sign of `time` and magnitude below 60 |
| DynamicPlayer.FormatTime | src/components/songs/DynamicPlayer.jsx:28-33 | `formatTime` as a definition; its label is described by `FormatTimeShape` and read back by `FormatTimeRoundTrip` |
| DynamicPlayer.ParseTime | src/components/songs/DynamicPlayer.jsx:28-33 | reading an "m:ss" label back gives a non-negative number of seconds, or nothing when the label is not of that shape |
| DynamicPlayer.ParseFields | src/components/songs/DynamicPlayer.jsx:32 | the minutes and two-digit seconds fields of a label read as a non-negative number of seconds |
| DynamicPlayer.TwoDigitSeconds | src/components/songs/DynamicPlayer.jsx:32 | zero-padded seconds are exactly two digits that read back as the seconds |
| DynamicPlayer.SplitTimeFields | src/components/songs/DynamicPlayer.jsx:32 | a rendered "m:ss" splits at ':' into its two digit fields |
| DynamicPlayer.ParseTimeSplits | src/components/songs/DynamicPlayer.jsx:32 | reading "m:ss" back reads its minutes and seconds fields |
| DynamicPlayer.FormatTimeShape | src/components/songs/DynamicPlayer.jsx:28-33 | NaN renders as "0:00". For `t >= 0` the label is the minutes, ':', and the seconds padded to two digits |
| DynamicPlayer.FormatTimeRoundTrip | src/components/songs/DynamicPlayer.jsx:28-33 | reading a rendered time back as `m * 60 + s` gives `floor(t)` |
| DynamicPlayer.IndexOfMode | src/components/songs/DynamicPlayer.jsx:42 | `modes.indexOf(repeatMode)` finds the mode in the list |
| DynamicPlayer.NextMode | src/components/songs/DynamicPlayer.jsx:41-42 | the next repeat mode differs from the current one |
| DynamicPlayer.RepeatCycle | src/components/songs/DynamicPlayer.jsx:40-45 | repeat cycles off, one, all, off; each press changes the mode, and three presses return to it |
| DynamicPlayer.ProgressPercentage | src/components/songs/DynamicPlayer.jsx:97 | progress is 0 when the duration is not positive, and otherwise the percentage of the duration played |
| DynamicPlayer.VolumePercentage | src/components/songs/DynamicPlayer.jsx:98 | 0 while muted, and within 0..100 for a volume within 0..1 |
| DynamicPlayer.SeekTime | src/components/songs/DynamicPlayer.jsx:77 | a slider position within 0..100 seeks to a time within the duration |
| DynamicPlayer.SeekToShownProgress | src/components/songs/DynamicPlayer.jsx:76-79 | seeking to the shown percentage seeks to the current time |
| DynamicPlayer.SliderAtShownVolume | src/components/songs/DynamicPlayer.jsx:98 | unmuted, the slider's shown percentage emits back the current volume |
| DynamicPlayer.ProgressChange | src/components/songs/DynamicPlayer.jsx:76-79 | a time is emitted iff `onSeek` is supplied; it is `percent / 100` of the duration for every duration (0 for the default 0), and for a positive duration the progress bar shows `percent` back |
| DynamicPlayer.SizeClass | src/components/songs/DynamicPlayer.jsx:81-87 | 'small' and 'large' get fixed classes; every other value gets the default |
| DynamicPlayer.ShapeClass | src/components/songs/DynamicPlayer.jsx:89-95 | 'square' and 'circle' get fixed classes; every other value gets the default |
| DynamicPlayer.ClassesDistinct | src/components/songs/DynamicPlayer.jsx:81-95 | the three size classes differ, the three shape classes differ, and each maps into its three classes |
| DynamicPlayer.Player.constructor | src/components/songs/DynamicPlayer.jsx:21-26 | initial state: unmuted, unshuffled, repeat off, karaoke off, medium and rounded |
| DynamicPlayer.Player.HandleShuffle | src/components/songs/DynamicPlayer.jsx:35-38 | shuffle flips |
| DynamicPlayer.Player.HandleRepeat | src/components/songs/DynamicPlayer.jsx:40-45 | the repeat mode moves to the next one in the cycle |
| DynamicPlayer.Player.ToggleKaraokeMode | src/components/songs/DynamicPlayer.jsx:47-54 | karaoke mode flips for a karaoke track and is unchanged otherwise |
| DynamicPlayer.Player.HandleVolumeSliderChange | src/components/songs/DynamicPlayer.jsx:56-64 | the slider emits value/100, and the player is muted iff the value is 0; without the callback nothing changes |
| DynamicPlayer.Player.ToggleMute | src/components/songs/DynamicPlayer.jsx:66-74 | unmuted, it emits 0 and mutes; muted, it emits the current volume and unmutes; without the callback nothing changes |
| DynamicPlayer.Player.SetPlayerSize | src/components/songs/DynamicPlayer.jsx:160 | the size selector stores its value |
| DynamicPlayer.Player.SetPlayerShape | src/components/songs/DynamicPlayer.jsx:165 | the shape selector stores its value |
| DynamicPlayer.Player.BoxClasses | src/components/songs/DynamicPlayer.jsx:107 | the player box's classes: the size class, then the shape class |
| Karaoke.CatalogIds | src/pages/Karaoke.jsx:32-77 | the catalog holds four tracks with ids 1 to 4, all distinct |
| Karaoke.Capitalize | src/pages/Karaoke.jsx:162 | the first character is upper-cased and the rest is unchanged |
| Karaoke.CapitalizeIdempotentAndCaseless | src/pages/Karaoke.jsx:162 | capitalising twice equals capitalising once, and it does not change the word case-insensitively |
| Karaoke.DifficultyColor | src/pages/Karaoke.jsx:104-112 | `getDifficultyColor`, as a definition; its distinctness is `DifficultyColorsDistinct` |
| Karaoke.DifficultyColorsDistinct | src/pages/Karaoke.jsx:104-112 | the four levels get four distinct colours, and a value gets a non-default colour iff it is one of the four |
| Karaoke.Rows | src/pages/Karaoke.jsx:317-322 | the list is the whole catalog in order, whatever the filters hold, and a row is highlighted iff its id is the current track's |
| Karaoke.HighlightedRows | src/pages/Karaoke.jsx:322 | with catalog track `k` current, exactly row `k` is highlighted; with none current, no row is |
| Karaoke.DurationLabel | src/pages/Karaoke.jsx:190 | "0:00" with no current track and for a current track with an empty duration; otherwise the track's duration |
| Karaoke.KaraokePage.constructor | src/pages/Karaoke.jsx:22-26 | initial state: not playing, no track, empty search, genre and difficulty "all" |
| Karaoke.KaraokePage.ShownRows | src/pages/Karaoke.jsx:317-322 | the rows rendered for the current track; described by `Rows` |
| Karaoke.KaraokePage.PlayTrack | src/pages/Karaoke.jsx:79-81 | the chosen track becomes current and plays |
| Karaoke.KaraokePage.TogglePlay | src/pages/Karaoke.jsx:89-94 | with a current track, playing flips and the track stays; with none, the first catalog track is current and playing |
| Karaoke.KaraokePage.SetSearchTerm | src/pages/Karaoke.jsx:277 | the search field stores its value |
| Karaoke.KaraokePage.SetSelectedGenre | src/pages/Karaoke.jsx:288 | the genre selector stores its value |
| Karaoke.KaraokePage.SetDifficulty | src/pages/Karaoke.jsx:303 | the difficulty selector stores its value |
| Karaoke.TogglePlayTwiceFromStart | src/pages/Karaoke.jsx:89-94 | on a fresh page, the first toggle plays the first track and the second pauses it |
| MassUpload.FileIdInjective | src/components/admin/MassUpload.jsx:18 | file ids with equal timestamps have equal names, and ids with equal names have equal timestamps |
| MassUpload.FileId | src/components/admin/MassUpload.jsx:18 | the id is the file name, a '-', then at least one more character (the timestamp) |
| MassUpload.ShownName | src/components/admin/MassUpload.jsx:155 | an entry that is still a `File` is listed under its name; a processed entry is listed with no name |
| MassUpload.NewFiles | src/components/admin/MassUpload.jsx:16-22 | each dropped file becomes a pending entry that is still the `File`, with id `name-lastModified`, in drop order |
| MassUpload.LastSeparatorUnique | src/components/admin/MassUpload.jsx:73 | a string has only one cut at a dot whose tail has no dot |
| MassUpload.TitleDropsExtension | src/components/admin/MassUpload.jsx:73 | the title of `base.ext` (no dot in `ext`) is `base` |
| MassUpload.TitleWithoutDot | src/components/admin/MassUpload.jsx:73 | a name without a dot gives the empty title |
| MassUpload.TitleExample | src/components/admin/MassUpload.jsx:73 | "a.b.mp3" gives "a.b" |
| MassUpload.TitleOf | src/components/admin/MassUpload.jsx:73 | the title, as a definition; described by `TitleDropsExtension` and `TitleWithoutDot` |
| MassUpload.StoragePath | src/components/admin/MassUpload.jsx:55 | the storage path starts with the user's id and a '/', and ends with the file name |
| MassUpload.RowFor | src/components/admin/MassUpload.jsx:72-79 | the row inserted for a stored file: its title, the fixed artist, its path, the public URL, the user and the source type |
| MassUpload.ProcessFile | src/components/admin/MassUpload.jsx:52-91 | a non-pending entry is unchanged with no insert. A pending entry becomes `{ id, status }` without the `File`'s name, success iff both the storage and database steps succeed. An insert is attempted iff storage succeeded, with the derived row |
| MassUpload.ProcessedFilesSpec | src/components/admin/MassUpload.jsx:52-94 | an upload keeps the queue's length, order and ids, and leaves non-pending entries alone. Each pending entry ends success or error, success iff both steps did, and is listed with a blank name |
| MassUpload.ProcessedFiles | src/components/admin/MassUpload.jsx:52-93 | the queue after `Promise.all`, as a definition; described by `ProcessedFilesSpec` |
| MassUpload.InsertsOf | src/components/admin/MassUpload.jsx:72-79 | at most one inserted row per queued entry, in queue order |
| MassUpload.UploadedEntryLosesName | src/components/admin/MassUpload.jsx:87-90 | a dropped file is listed under its name, and after a successful upload its entry is `{ id, status: success }` and is listed with no name |
| MassUpload.NothingPendingNothingChanges | src/components/admin/MassUpload.jsx:53 | a queue without pending files comes back unchanged, with no inserts |
| MassUpload.InsertsComeFromStoredFiles | src/components/admin/MassUpload.jsx:72-79 | every inserted row comes from a pending dropped file whose storage upload succeeded, with artist 'Unknown Artist', source 'upload' and the user's id |
| MassUpload.Uploader.constructor | src/components/admin/MassUpload.jsx:11-12 | the queue starts empty and not uploading |
| MassUpload.Uploader.OnDrop | src/components/admin/MassUpload.jsx:16-22 | dropped files are appended after the queue as new pending entries, also during an upload |
| MassUpload.Uploader.BeginUpload | src/components/admin/MassUpload.jsx:32-52 | no user, or an empty queue, stops with a notice and no change. Otherwise `uploading` is set and the callbacks work on the queue as it is then |
| MassUpload.Uploader.FinishUpload | src/components/admin/MassUpload.jsx:52-95 | the queue is replaced by the processed snapshot, whatever was dropped meanwhile; the derived rows are inserted and uploading ends false |
| MassUpload.Uploader.HandleUpload | src/components/admin/MassUpload.jsx:32-101 | with nothing dropped meanwhile: with no user, or an empty queue, it stops with the state unchanged. Otherwise the queue becomes the processed queue, the derived rows are inserted, and uploading ends false |
| MassUpload.Uploader.ButtonLabel | src/components/admin/MassUpload.jsx:167 | the button reads "Uploading..." while uploading, and otherwise the number of queued files |
| MassUpload.DropDuringUploadIsLost | src/components/admin/MassUpload.jsx:16-94 | a file dropped between the start and the end of an upload is queued, and is gone from the queue once the upload finishes |
| UserProfile.DisplayNameFromMetadata | src/components/auth/UserProfile.jsx:50-53 | a non-empty metadata name is the display name |
| UserProfile.DisplayNameFromEmail | src/components/auth/UserProfile.jsx:54-56 | otherwise the display name is the email's part before the first '@', or the whole email when it has none |
| UserProfile.DisplayNameFallback | src/components/auth/UserProfile.jsx:50-58 | with neither a name nor an email, or no user, the display name is "User" |
| UserProfile.DisplayName | src/components/auth/UserProfile.jsx:50-58 | no user gives "User"; the other cases are stated by the three lemmas above |
| UserProfile.FirstChars | src/components/auth/UserProfile.jsx:62 | at most one character per word; which characters is stated by `FirstCharsAppend` and `FirstCharsOfWords` |
| UserProfile.Initials | src/components/auth/UserProfile.jsx:60-63 | at most two characters; their values are stated by `InitialsOfOneWord`, `InitialsOfTwoWords` and `InitialsOfManyWords` |
| UserProfile.InitialsOfOneWord | src/components/auth/UserProfile.jsx:62 | a one-word name gives exactly its first character, upper-cased |
| UserProfile.InitialsOfTwoWords | src/components/auth/UserProfile.jsx:62 | "First Last" gives both first characters, upper-cased |
| UserProfile.InitialsOfManyWords | src/components/auth/UserProfile.jsx:62 | a name of three or more words gives the upper-cased first letters of its first two words |
| UserProfile.FirstCharsAppend | src/components/auth/UserProfile.jsx:62 | the first characters of two word lists put together are those of each, in order |
| UserProfile.FirstCharsOfWords | src/components/auth/UserProfile.jsx:62 | non-empty words give one character each, the i-th being the i-th word's first |
| UserProfile.InitialsSkipEmptyWords | src/components/auth/UserProfile.jsx:62 | an empty word anywhere (leading, trailing or from a doubled space) contributes nothing |
| UserProfile.SubscriptionType | src/components/auth/UserProfile.jsx:65-69 | the plan is always "Free Plan" |
| UserProfile.Render | src/components/auth/UserProfile.jsx:76-97 | nothing is rendered iff there is no user; otherwise the initials, the display name and "Free Plan" |
| UserProfile.ProfileMenu.constructor | src/components/auth/UserProfile.jsx:17 | the dropdown starts closed |
| UserProfile.ProfileMenu.ToggleOpen | src/components/auth/UserProfile.jsx:81 | the avatar button flips the dropdown |
| UserProfile.ProfileMenu.MouseDown | src/components/auth/UserProfile.jsx:22-33 | a mousedown outside the menu closes it; inside, it keeps its state |
| UserProfile.ProfileMenu.HandleProfileClick | src/components/auth/UserProfile.jsx:40-43 | closes the dropdown and navigates to "/profile" |
| UserProfile.ProfileMenu.HandleSubscriptionClick | src/components/auth/UserProfile.jsx:45-48 | closes the dropdown and navigates to "/subscribe" |
| UserProfile.ProfileMenu.HandleSignOut | src/components/auth/UserProfile.jsx:35-38 | after signing out the dropdown is closed |
| ProtectedRoute.Decide | src/components/auth/ProtectedRoute.jsx:11-35 | the loader shows iff loading. It redirects to `redirectTo` with the location iff auth is required and missing, and to "/" iff it is not required and present; otherwise the children render |
| ProtectedRoute.DecideDefault | src/components/auth/ProtectedRoute.jsx:7 | the guard with `requireAuth = true` and `redirectTo = '/login'`; described by `DefaultGuard` |
| ProtectedRoute.ChildrenIffSatisfied | src/components/auth/ProtectedRoute.jsx:27-35 | once loaded, the children render iff the signed-in state is what the route requires, and it redirects otherwise |
| ProtectedRoute.DefaultGuard | src/components/auth/ProtectedRoute.jsx:7-29 | with the defaults, a visitor goes to "/login", a user sees the children, and loading shows the loader |
| Home.MoveItem | src/pages/Home.jsx:56-60 | the item with the dropped id moves and keeps everything else; every other item and the list's length and order are unchanged |
| Home.MoveUnknownId | src/pages/Home.jsx:56-60 | a drop whose id matches no item, or is not a number, leaves the canvas unchanged |
| Home.MoveLastWins | src/pages/Home.jsx:56-60 | a move keeps the item's id, kind, source and size, and of two moves of one item the last wins |
| Home.DragRoundTrip | src/pages/Home.jsx:45-51 | for the two handlers as written: an id that `handleDragStart` would write reads back as the same id, so the drop moves that item. The page never attaches `handleDragStart` (see "## Left out") |
| Home.DropResult | src/pages/Home.jsx:49-61 | `handleDrop` on the item list; described by `DragRoundTrip` and `MoveUnknownId` |
| Home.ImageItem | src/pages/Home.jsx:30-38 | an uploaded image becomes an item of kind 'image', 200 by 150, with id `now + index` and a position inside 300 by 200 |
| Home.ImageItems | src/pages/Home.jsx:27-42 | one item per load, in the order the loads fired |
| Home.HomePage.constructor | src/pages/Home.jsx:20-21 | the canvas starts empty and not playing |
| Home.HomePage.HandleImageUpload | src/pages/Home.jsx:25-43 | the new items are appended after the existing ones |
| Home.HomePage.HandleDrop | src/pages/Home.jsx:49-61 | the canvas becomes the moved list for the parsed id and the drop point relative to the canvas |
| Home.HomePage.PlayMusic | src/pages/Home.jsx:63-64 | the playing flag flips |
| Subscribe.CurrentPlans | src/pages/Subscribe.jsx:142 | the individual plans are shown iff the individual tab is selected, and the venue plans iff the venue tab is |
| Subscribe.PriceCents | src/pages/Subscribe.jsx:279 | `plan.price[billingCycle]`, as a definition |
| Subscribe.PeriodLabel | src/pages/Subscribe.jsx:282 | "month" for monthly billing, "year" otherwise, as a definition |
| Subscribe.SavingsCents | src/pages/Subscribe.jsx:288 | `monthly * 12 - yearly`, as a definition; its values are `SavingsPositive` |
| Subscribe.DollarsLabel | src/pages/Subscribe.jsx:288 | a cent amount renders with a point before the last two characters, and starts with a minus sign iff it is negative |
| Subscribe.UnsignedDollars | src/pages/Subscribe.jsx:288 | an unsigned cent amount renders with a point before the last two characters |
| Subscribe.UnsignedDollarsValue | src/pages/Subscribe.jsx:288 | the label is all digits but the point; the digits before it read as the whole dollars, without a leading zero, and the two after it as the cents |
| Subscribe.DollarsLabelValue | src/pages/Subscribe.jsx:288 | a signed label is a minus sign exactly for a negative amount, then the dollars and two digits of cents of its magnitude |
| Subscribe.SavingsLine | src/pages/Subscribe.jsx:286-290 | the savings line exists iff billing is yearly, and reads "Save $" + the savings + " per year" |
| Subscribe.SavingsPositive | src/pages/Subscribe.jsx:286-290 | 12 × monthly − yearly is positive for every plan: 1989, 3989, 9989 and 19989 cents |
| Subscribe.MusicOnlySavingsLabel | src/pages/Subscribe.jsx:286-290 | Music Only saves "19.89": on yearly billing the line reads "Save $19.89 per year", and on monthly billing there is no line |
| Subscribe.ButtonLabel | src/pages/Subscribe.jsx:313 | the button reads "Subscribe Now" iff a user is present, and "Get Started" iff not |
| Subscribe.Toggled | src/pages/Subscribe.jsx:230 | the billing switch changes the cycle |
| Subscribe.ToggleTwice | src/pages/Subscribe.jsx:230 | two presses of the billing switch are the identity |
| Subscribe.SubscribePage.constructor | src/pages/Subscribe.jsx:22-25 | initial state: individual plans, monthly billing, auth dialog closed in sign-up mode |
| Subscribe.SubscribePage.Shown | src/pages/Subscribe.jsx:142 | the plans of the selected tab; described by `CurrentPlans` |
| Subscribe.SubscribePage.SavingsLines | src/pages/Subscribe.jsx:286-290 | one savings line per shown plan, every one present on yearly billing and none on monthly billing |
| Subscribe.SubscribePage.SelectPlan | src/pages/Subscribe.jsx:194-205 | a tab selects its plan group |
| Subscribe.SubscribePage.ToggleBilling | src/pages/Subscribe.jsx:230 | the billing cycle flips |
| Subscribe.SubscribePage.HandleSubscribe | src/pages/Subscribe.jsx:107-125 | without a user the auth dialog opens in sign-up mode; with one the dialog state is untouched |
| Subscribe.SubscribePage.CloseAuthModal | src/pages/Subscribe.jsx:409 | closing the dialog closes it |
| FundingCard.Round | src/components/micfight-hero/FundingCard.jsx:28 | `Math.round` gives the integer within half of `x`, halves rounding up |
| FundingCard.RoundUnique | src/components/micfight-hero/FundingCard.jsx:28 | that integer is the only one |
| FundingCard.FundingPercentage | src/components/micfight-hero/FundingCard.jsx:8 | raised / goal × 100, undefined iff the goal is 0 |
| FundingCard.PercentShown | src/components/micfight-hero/FundingCard.jsx:8-28 | the shown percentage lies in 0..100 when raised is at most the goal; 3200 of 5000 shows 64 |
| FundingCard.CustomAmount | src/components/micfight-hero/FundingCard.jsx:50 | the custom amount is the parsed integer, or 0 when it does not parse |
| FundingCard.CustomAmountOfNumeral | src/components/micfight-hero/FundingCard.jsx:50 | a typed numeral gives its value; "" and "abc" give 0 |
| FundingCard.Card.constructor | src/components/micfight-hero/FundingCard.jsx:7 | the support amount starts at 25 |
| FundingCard.Card.ChoosePreset | src/components/micfight-hero/FundingCard.jsx:42-43 | a preset button sets the amount to its value |
| FundingCard.Card.TypeAmount | src/components/micfight-hero/FundingCard.jsx:50 | typing sets the amount to the custom amount |
| FundingCard.Card.Highlighted | src/components/micfight-hero/FundingCard.jsx:43 | a preset button is highlighted iff its value is the amount |
| FundingCard.Card.Support | src/components/micfight-hero/FundingCard.jsx:54 | the support button passes exactly the current amount |
| FundingCard.PresetThenSupport | src/components/micfight-hero/FundingCard.jsx:42-54 | after choosing preset `i`, only that button is highlighted and supporting passes its value |
| PlatformSettings.SliderValue | src/components/admin/PlatformSettings.jsx:37-41 | the slider yields a fee in 0..30, which is the position when it is in range |
| PlatformSettings.ArtistShare | src/components/admin/PlatformSettings.jsx:59 | `100 - fee`, as a definition; see `SharesSplitTheWhole` |
| PlatformSettings.PlatformShare | src/components/admin/PlatformSettings.jsx:63 | the fee itself, as a definition; see `SharesSplitTheWhole` |
| PlatformSettings.SharesSplitTheWhole | src/components/admin/PlatformSettings.jsx:59-63 | artist and platform shares sum to 100, and with a fee in range the artist keeps 70..100 |
| PlatformSettings.Settings.constructor | src/components/admin/PlatformSettings.jsx:9 | the fee starts at 15, within bounds |
| PlatformSettings.Settings.SetFee | src/components/admin/PlatformSettings.jsx:41 | the slider sets the fee to its in-range value, keeping it within 0..30 |

## Left out

- Backend I/O: Supabase queries, storage uploads, inserts and sign-out are outside calls. Only their outcomes are inputs, and the rows asked for are recorded.
- `localStorage` writes (Songs.jsx:43-53) are not modelled. Reads are an input to `RestoreSaved`; the JSON text is taken as already parsed.
- Notifications, help stubs and navigation side effects other than the returned path are not modelled.
- Animation, styling, icons and feature lists beyond the class names above are not modelled.
- `Date.now()`, `Math.random()` and `FileReader` timing are caller-supplied inputs. `HandleImageUpload` takes the reader callbacks in the order they fired; which order that is, is not modelled.
- MassUpload.Uploader.HandleUpload: the `Promise.all` callbacks are taken one after another in queue order, so their interleaving is not modelled, and `onUploadSuccess` is not modelled. What happens while the callbacks are pending is modelled by `BeginUpload` and `FinishUpload`, with `DropDuringUploadIsLost` showing that a file dropped in between is discarded by `setFiles(results)`. `HandleUpload` itself runs both halves with nothing dropped in between.
- The dropzone's file-type and size acceptance is done by a library and is not modelled; `OnDrop` receives the accepted files.
- IEEE floating point, `Infinity` and `toLocaleString` are not modelled. Ratios are exact `real`s and `FormatTime` takes NaN or a real number of seconds. Prices are exact whole cents, so the savings amount is exact. The binary rounding behind `toFixed(2)` of an amount like `9.99 * 12 - 99.99` is not modelled: `DollarsLabel` prints the exact cents.
- FundingCard.FundingPercentage: a zero goal gives `None` rather than JavaScript's `Infinity` or `NaN`.
- Strings are sequences of Unicode scalar values, while JavaScript strings are sequences of UTF-16 code units. Indexing, `slice`, `charAt` and `length` on characters outside the Basic Multilingual Plane (emoji, for example) are not modelled. For such a character the source takes a lone surrogate half where the model takes the whole character, for instance as the first character of a word in `UserProfile.Initials`.
- Home.DragRoundTrip: `handleDragStart` (Home.jsx:45-47) is never attached to any element. The canvas items are moved on screen by framer-motion's `drag` prop (Home.jsx:101), which is not modelled and does not touch the item list. So `handleDrop` only receives data from drags that start outside the page, such as a dropped file whose text is empty and parses to NaN (`MoveUnknownId`). The lemma covers the handler pair as written.
- Case mapping covers ASCII letters only (Unicode case folding is not modelled). `parseInt` is decimal only: no radix and no hexadecimal prefix.
- DynamicPlayer.JsRemSixty: bounds on JavaScript's `%` are stated only for the modulus 60 that `formatTime` uses.
- DynamicPlayer.FormatTimeRoundTrip: stated for times `t >= 0` only. For negative times `FormatTime` still follows JavaScript's truncating `%`.
- The `onSeek`/`onVolumeChange` callbacks are not supplied by the song page. They are flags, and the emitted value is an output; without a callback the handler throws before changing state, so nothing changes.
- Songs.SongsPage.Previous: a current id missing from the catalog makes `songs[-2]` `undefined`. The model follows the code: no song becomes current while `isPlaying` is set.
- The song page's `selectedLibrary`, `selectedPlaylist` and `viewMode` state is not modelled. It is only displayed and does not affect the operations above.
- Karaoke skip-back/skip-forward buttons have no handler, so there is no operation to model. The vocal-guide and key-change buttons only show a notification.
- PlatformSettings: the feature and rule switches read fixed literals, and their handler only notifies, so there is no state to model. The prize inputs are not modelled.
- PlatformSettings.SliderValue: the range input delivers its position as a string, which the code stores and uses in arithmetic through JavaScript's numeric coercion. The model stores the number.
- The dialogs' Cancel and backdrop only call `onClose`, which the song page handles outside this model.
- The Subscribe page's welcome line, feature lists and plan colours are not modelled.
