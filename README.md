# Music-to-Spotify: a Dafny model of the metadata and reconciliation logic

The program scans a local directory for audio files and derives a (title, artist)
record for each one. It takes the record from ID3 tags or from the file name. It
then reconciles the records against a remote playlist called "Local Tracks":

- it reuses the first playlist with that exact name, or creates it;
- it takes the playlist's membership once;
- it searches the catalog for `"{title} {artist}"`;
- it adds the top hit unless the membership snapshot already holds its id.

The model covers two files.

- `main.py` has the `Music` class and `main`. Its extractor lists `.mp3` files
  only, and it drops a file whose tag read raises.
- `tests/mutagen_test.py` has a second extractor. It lists `.mp3` and `.m4a`
  files, and it falls back to `parse_filename` whenever the tag read raises, so
  every file yields a record.

Both extractors are modelled as written.

Modules:

- `Wrappers` holds `Option` and `Result`.
- `PathExt` models `os.path.splitext` on POSIX paths. The extension starts at the
  last `.` after the last `/`. A name whose characters before that `.` are all
  dots has no extension.
- `Listing` models `str.endswith` and the list comprehensions that select files
  from a listing.
- `Tags` holds the tag reader's outcome per file and the `try` body the two
  extractors share.
- `FilenameParser` models the pattern `(?P<artist>.+?) - (?P<title>.+)` under
  `re.match`. The artist is the shortest prefix, at least one character long,
  that is followed by `" - "` and then by at least one more character. The title
  runs from after that separator to the end of the line. As in Python's `re`,
  `.` does not match a newline, so a newline inside the would-be artist stops
  the match. A newline after the separator ends the title.
- `MutagenTest` covers `files`, the per-file fallback, and `main` of the test
  file.
- `Spotify` holds the remote payloads as typed values. It also holds the
  specification of one run: the first-name match, the page concatenation, the
  search query, and the ids a run adds.
- `MusicApp` holds the `Music` class, the configuration checks of `main`, and
  `main` itself (`Run`).

The remote service is not called. Its answers are inputs:

- the user id;
- the first page of the user's playlists;
- the id given to a new playlist;
- the chain of pages of the playlist's items;
- the top search hit per query, as a function `string -> Option<TrackId>`.

The directory listing and the tag reader's outcome per file are inputs too. The
outcome is `NoHeader`, `Failed`, or the tag values for `title` and `artist`.
Calls that change the remote state go, in order, into the `calls` field of
`Music`. These are playlist creation and `playlist_add_items`.

Notes on the code:

- `main.py` lists only `.mp3` files and has no filename fallback, so a file whose
  tags cannot be read is dropped.
- Both extractors take the first tag value as it is, so an empty first value
  gives an empty field. `MutagenTest.ArtistNonEmpty` states exactly when the
  artist can be empty.
- The add loop in `main.py` has no `try`, so a failed add ends the run.
- Only the first page of `user_playlists` is read.

One point of precision: `"A - B"` parses to title `B` and artist `A` only when
the pattern cannot match earlier. Having no `" - "` in `A` is not enough. With
`A = "x -"` and `B = " y"` the name is `"x - -  y"`, which splits after `"x"`.
`FilenameParser.SplitAtFirstSeparator` therefore requires that no `" - "` starts
at an index from 1 to `|A| - 1` of `A + " - "`.

## Model

| member | source | states |
|---|---|---|
| `PathExt.RFind` | tests/mutagen_test.py:52 | the result is -1 or an index holding the character, and no later index holds it |
| `PathExt.SplitExt` | tests/mutagen_test.py:52 | root followed by extension gives back the name; the extension is empty or one `.` followed by neither `.` nor `/`; a non-empty name has a non-empty root |
| `PathExt.Stem` | main.py:29 | the stem is a prefix of the name, and a non-empty name has a non-empty stem |
| `PathExt.StemDropsExtension` | tests/mutagen_test.py:52 | appending an extension to a name with no `/` and some character other than `.` is undone by splitext |
| `PathExt.LeadingDotsKeepName` | tests/mutagen_test.py:56 | a name that is only dots before its last `.` has no extension, so the stem is the whole name |
| `PathExt.SplitExtExamples` | tests/mutagen_test.py:52 | `"a.b.mp3"` splits into `"a.b"` and `".mp3"`; `".mp3"` keeps its whole name |
| `Listing.EndsWith` | main.py:20 | a name ends with a suffix exactly when some prefix followed by the suffix is the name |
| `Listing.EndsWithAny` | tests/mutagen_test.py:15 | `endswith` on a tuple holds exactly when the name is some prefix followed by one of the suffixes |
| `Listing.WithSuffix` | tests/mutagen_test.py:15 | a name is selected exactly when it is in the listing and ends with one of the suffixes; there are no more selected names than listed ones |
| `Listing.WithSuffixAppend` | main.py:20 | selection keeps listing order: selecting from a concatenation concatenates the selections |
| `Tags.FirstOr` | main.py:29-30 | `get(key, [default])[0]` raises exactly when the key has an empty value list; otherwise it gives the first value, or the default when the key is absent |
| `Tags.TagRecord` | main.py:27-31 | the `try` body gives a record exactly for a readable header whose `title` and `artist` are each absent or have a non-empty value list |
| `Tags.TagRecordSpec` | main.py:27-31 | a record from the tag branch has as title the first title value or else the stem, and as artist the first artist value or else "Unknown Artist" |
| `FilenameParser.SplitsAt` | tests/mutagen_test.py:51 | a match with an artist group of length `i` cuts the stem into a non-empty artist, `" - "` and a non-empty rest |
| `FilenameParser.FirstSplit` | tests/mutagen_test.py:51-52 | the lazy artist group settles on the smallest length at which the pattern matches, and finds none exactly when no length works |
| `FilenameParser.LineEnd` | tests/mutagen_test.py:51 | the greedy title group stops at the first newline, or at the end |
| `FilenameParser.ParseStem` | tests/mutagen_test.py:51-56 | the artist is never empty; the title is non-empty for a non-empty stem |
| `FilenameParser.ParseFilename` | tests/mutagen_test.py:49-56 | total: every file name gives a record; the artist is never empty; the title is non-empty for a non-empty name |
| `FilenameParser.FallbackIffNoSplit` | tests/mutagen_test.py:52-56 | the result is (stem, "Unknown Artist") exactly when no artist length lets the pattern match |
| `FilenameParser.SplitAtFirstSeparator` | tests/mutagen_test.py:51-55 | `A + " - " + B` with no earlier match gives title `B` and artist `A`, even when `B` holds more separators |
| `FilenameParser.ParseArtistDashTitle` | tests/mutagen_test.py:49-55 | the same for a file name `A - B` plus an extension |
| `FilenameParser.FirstSeparatorWins` | tests/mutagen_test.py:51-55 | the result splits at the first qualifying separator; later separators stay in the title |
| `FilenameParser.NoQualifyingSeparator` | tests/mutagen_test.py:51-56 | the stems `" - B"` (separator at index 0 only) and `"A - "` (nothing after the separator) give the fallback; `FilenameParser.FallbackIffNoSplit` states the general rule |
| `MutagenTest.Files` | tests/mutagen_test.py:14-15 | a name is listed exactly when it is in the directory listing and ends in ".mp3" or ".m4a" |
| `MutagenTest.FileRecord` | tests/mutagen_test.py:29-41 | a missing header or any other read error gives `parse_filename(file)`; a successful tag branch gives its record |
| `MutagenTest.ReadRecord` | tests/mutagen_test.py:29-41 | one pass of the loop gives exactly the file's record: the tag branch's record, or `parse_filename(file)` on either exception |
| `MutagenTest.Run` | tests/mutagen_test.py:23-46 | no result without a DIRECTORY setting; otherwise exactly one record per listed file, in file order |
| `MutagenTest.ArtistNonEmpty` | tests/mutagen_test.py:31-41 | a record's artist is empty exactly when the tags read, the title key is absent or non-empty, and the first artist tag value is empty |
| `MutagenTest.TwoFileExample` | tests/mutagen_test.py:27-41 | an untagged "Artist1 - SongA.mp3" gives ("SongA", "Artist1"); a tagged "SongB.m4a" gives its tags |
| `MusicApp.Somes` | main.py:32-33 | dropping failed outcomes never gives more values than outcomes |
| `MusicApp.SomesAppend` | main.py:24-33 | dropping failed outcomes keeps order |
| `MusicApp.SomesMembership` | main.py:24-33 | a value is kept exactly when it is the value of some successful outcome |
| `MusicApp.SomesAllSome` | main.py:24-33 | with no failed outcome every value is kept, in place |
| `MusicApp.Outcomes` | main.py:24-31 | one tag-branch outcome per file, in file order |
| `MusicApp.MainRecords` | main.py:22-34 | `extract_metadata` gives at most one record per file |
| `MusicApp.MainRecordsAppend` | main.py:24-34 | the records keep file order |
| `MusicApp.MainRecordsMembership` | main.py:23-34 | a record is produced exactly when it is the tag branch's record of some file; a file whose read raises produces none |
| `MusicApp.MainRecordsAllRead` | main.py:24-31 | when every tag read succeeds there is one record per file, in file order |
| `MusicApp.VariantsAgreeWhenTagsRead` | main.py:26-31 | on files whose tags read, main.py's extractor and the test extractor give the same records |
| `MusicApp.CheckConfig` | main.py:98-107 | stops with "no directory" exactly when none was chosen, and with "missing credentials" exactly when one of the three settings is absent or empty; otherwise passes all four on unchanged |
| `MusicApp.Music.constructor` | main.py:10-17 | stores the settings, sets scope "playlist-modify-public", starts with no session, no user id and no remote calls |
| `MusicApp.Music.Files` | main.py:19-20 | a name is listed exactly when it is in the directory listing and ends in ".mp3" |
| `MusicApp.Music.ExtractMetadata` | main.py:22-34 | the loop builds exactly `MainRecords` of the ".mp3" files |
| `MusicApp.Music.IntegrateWithSpotify` | main.py:36-43 | opens a session from this object's settings and records the user's id |
| `MusicApp.Music.CreatePlaylist` | main.py:45-58 | returns the id of the first playlist on the page with exactly that name and makes no call; only when none matches does it create one, once, public, and return its id |
| `MusicApp.Music.GetPlaylistTracks` | main.py:60-67 | the ids of every item of every page, in page order, up to the page with no next link; as many ids as items |
| `MusicApp.Music.SearchAndAddTracks` | main.py:69-85 | the calls made are the adds `AddedIds` gives for the extracted records against the snapshot of the playlist |
| `MusicApp.Music.AddMissingTracks` | main.py:72-85 | the loop makes exactly the add calls of `AddedIds`, one track per call, in record order |
| `MusicApp.Run` | main.py:92-111 | stops on a configuration error with that error; otherwise resolves "Local Tracks", creating it only when missing, then makes exactly the add calls of `AddedIds` |
| `Spotify.FirstNamed` | main.py:49-53 | gives the first page position whose name equals the name exactly, and none exactly when no name matches |
| `Spotify.TrackIds` | main.py:67 | one id per item, in item order |
| `Spotify.AllItems` | main.py:61-66 | the collected items are as many as all pages hold together |
| `Spotify.AllItemsMembership` | main.py:60-66 | an item is collected exactly when some page holds it |
| `Spotify.Query` | main.py:73 | the query is the title, one space, then the artist |
| `Spotify.AddFor` | main.py:74-85 | at most one add per record; an add happens exactly when the search has a top hit whose id is not in the snapshot, and it adds that id |
| `Spotify.AddedIds` | main.py:70-85 | no more adds than records; no added id is in the snapshot |
| `Spotify.AddedIdsStep` | main.py:72-83 | the adds for one more record extend the previous adds by that record's add |
| `Spotify.AddCalls` | main.py:83 | one `playlist_add_items` call with a single track per added id, in order |
| `Spotify.AddCallsAppend` | main.py:72-83 | the calls for a concatenation of ids are the calls for each part, in order |
| `Spotify.AddedIdsAppend` | main.py:72-85 | records are handled in order, each on its own |
| `Spotify.AddedIdsMembership` | main.py:70-83 | an id is added exactly when it is some record's top hit and is not in the snapshot |
| `Spotify.SameNewHitAddedTwice` | main.py:70-83 | the snapshot is never refreshed, so two records with the same new top hit add it twice |
| `Spotify.Idempotent` | main.py:70-85 | a run whose snapshot holds the earlier snapshot and every id the earlier run added adds nothing |
| `Spotify.RerunAddsNothing` | main.py:70-85 | a second run against the playlist as the first run left it adds nothing |

## Left out

- Network calls are not modelled; their answers are inputs. This covers OAuth, `sp.me`, `user_playlists`, `user_playlist_create`, `playlist_tracks`, `sp.next`, `sp.search` and `playlist_add_items`. Exceptions they raise are not modelled either: the add loop has no `try`, so such an error ends the run.
- mutagen's ID3 parsing is not modelled. Each file's outcome is an input, and the model does not depend on tag formats.
- The filesystem, tkinter, dotenv, `os.getenv`, `print` and `logging` are not modelled. The directory listing, the chosen directory and the environment values are inputs. A directory that `os.listdir` cannot read is not modelled.
- A track's name and artist in a search hit are used only for printing, so only the hit's id is modelled.
- Null track ids of local or unavailable playlist items are not modelled; snapshot ids are strings. A search hit always has an id, so such items could never block an add.
- `TrackPage.hasNext` stands for the truthiness of the `next` URL.
- `Spotify.IsChain` is a precondition of `MusicApp.Music.GetPlaylistTracks`, `MusicApp.Music.SearchAndAddTracks` and `MusicApp.Run`. It says the service's pages end in one with no `next` link. A service that never ends the chain would make the loop run forever, which the model does not capture.
- Only the first page of `user_playlists` is read, as in the code.
- `MusicApp.Music.GetPlaylistTracks`, `MusicApp.Music.SearchAndAddTracks` and `MusicApp.Music.AddMissingTracks` require `sp.Some?`, so they cannot be called before `IntegrateWithSpotify`. Python would raise `AttributeError` on `None` there; `main` always calls `create_playlist`, which opens the session, first.
- `MusicApp.Music.Files` takes the listing of `directory` as a parameter instead of reading `directory`.
- `MusicApp.Music.SearchAndAddTracks` passes the snapshot and the records to `MusicApp.Music.AddMissingTracks`, which holds the loop of `search_and_add_tracks`.
- Newlines: `.` excludes `'\n'` only. Python's `re` treats no other character as a line end for `.`.
