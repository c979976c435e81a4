# Soundwave: a verified model of the stores, handlers and formatters

Soundwave is a music-streaming single-page application. Its logic lives in
in-memory mock services and a few React components:

- **Download store.** A list of downloaded songs plus a running `storageUsed`
  total, kept under a 5 GiB quota. It supports downloading a song or a whole
  album, removing a download, clearing everything, counting plays, and queries
  for storage, search, type, recently played and most played.
- **User library.** Saved songs, saved albums, and a recently-played history
  capped at ten entries.
- **Catalogue tables.** Songs, albums, playlists and genres, each an id-keyed
  list with lookup, search, `create`, `update` and `delete`. Playlists can also
  gain and lose songs.
- **Root controller (`App`).** The current song, the playing flag, and the ids
  of favourite and downloaded songs. It updates them after each store call.
- **Downloads page.** Tab and search filtering of the download list, the tab
  counters, and the remove and play handlers.
- **Player bar, track row and profile page.** The `m:ss` clocks, play/pause
  dispatch, volume and mute, the artist line, the listening-time text, and the
  settings record.

Each module-level list that the source mutates is a class with a `seq` field
whose methods reassign it. Filters, sorts and formatters are functions. Each
asynchronous store call is a synchronous call, and its outcome (success or
failure) is a parameter of the handler that awaits it. Random file sizes,
random listening time and clock readings are parameters too.

Files, one module each:

| file | module |
|---|---|
| `wrappers.dfy` | `Option` and `Result` |
| `seqs.dfy` | filter, take, splice, id lookup and id assignment, stable descending sort, top-n |
| `text.dfy` | ASCII `toLowerCase`, `includes`, `trim`, decimal rendering, the `m:ss` clock and its parser |
| `catalog.dfy` | the entities, the patch records, and `{ ...record, ...patch }` |
| `songs_service.dfy`, `albums_service.dfy`, `genres_service.dfy`, `playlists_service.dfy` | the catalogue tables |
| `user_library.dfy` | the user library store |
| `download_service.dfy` | the download store and its queries |
| `app.dfy` | the root controller |
| `download_manager.dfy` | the downloads page |
| `music_player.dfy`, `track_item.dfy`, `profile.dfy` | the player bar, a track row, the profile page |

## Model

| member | source | states |
|---|---|---|
| Seqs.Filter | src/services/api/songsService.js:43-47 | `Array.prototype.filter`: the result is an order-preserving subsequence holding exactly the elements that satisfy the predicate |
| Seqs.FilterConcat | src/services/api/downloadService.js:67-95 | filtering distributes over concatenation (used to follow a loop that keeps elements one at a time) |
| Seqs.FilterCounts | src/services/api/songsService.js:43-47 | the filter keeps every copy of a satisfying element and no copy of any other |
| Seqs.FilterKeepsAll | src/services/api/downloadService.js:141-142 | a filter whose predicate holds everywhere returns the list unchanged |
| Seqs.SubseqMembers | src/components/pages/DownloadManager.jsx:75-82 | every record a filter keeps is a record of the list it filtered |
| Seqs.SubseqSorted | src/components/pages/DownloadManager.jsx:66-82 | filtering a list sorted by a key leaves it sorted by that key |
| Seqs.Take | src/services/api/userLibraryService.js:41-43 | `slice(0, n)`: the first `n` elements, or all of them when there are fewer; always a prefix |
| Seqs.RemoveAt | src/services/api/songsService.js:83 | `splice(i, 1)`: one shorter; the elements before `i` stay, the ones after shift down by one |
| Seqs.RemoveAtMultiset | src/services/api/songsService.js:83 | a splice removes exactly one copy of the element at `i` |
| Seqs.RemoveAtKeepsUnique | src/services/api/songsService.js:83 | deleting an entry keeps the table's ids unique |
| Seqs.Ids | src/App.jsx:32-33 | `map(x => x.Id)`: same length, each position holds that element's id |
| Seqs.IdsConcat | src/App.jsx:107-108 | the id list of a concatenation is the concatenation of the id lists |
| Seqs.IndexOfId | src/services/api/songsService.js:69-72 | `findIndex` by id: -1 exactly when no element has the id; otherwise the first position that has it |
| Seqs.AppendIfNewId | src/services/api/userLibraryService.js:11-13 | the id is present afterwards; the list is unchanged when the id was present, else extended by the element at the end |
| Seqs.AppendIfNewIdIdempotent | src/services/api/userLibraryService.js:11-13 | adding the same element twice is adding it once |
| Seqs.RemoveId | src/services/api/userLibraryService.js:19 | `filter(x => x.Id !== id)`: no element keeps the id; every other element keeps all its copies and its order |
| Seqs.CountId | src/services/api/userLibraryService.js:19 | the number of elements with the id is at most the length, and zero exactly when no element has the id |
| Seqs.RemoveIdLength | src/services/api/userLibraryService.js:19 | removing an id shortens the list by exactly the number of elements that carry it |
| Seqs.MaxId | src/services/api/songsService.js:61 | `Math.max(...ids)` of a non-empty table: an upper bound that is one of the ids |
| Seqs.NextIdAsWritten | src/services/api/songsService.js:61 | `Math.max(...ids) + 1` as written: finite exactly when the table is non-empty, and then above every id |
| Seqs.NextId | src/services/api/songsService.js:59-62 | the id `create` assigns: above every existing id; equal to the as-written value on a non-empty table, and 1 on an empty one |
| Seqs.AppendNextIdKeepsUnique | src/services/api/songsService.js:59-63 | appending an element with the next id keeps the ids unique |
| Seqs.InsertDesc | src/services/api/downloadService.js:181 | inserting one element: one longer, and the multiset grows by exactly that element |
| Seqs.ConsSorted | src/services/api/downloadService.js:181 | an element whose key is at least every key of a sorted list may go in front of it |
| Seqs.InsertDescSorted | src/services/api/downloadService.js:181 | inserting into a list sorted by descending key keeps it sorted |
| Seqs.SortDesc | src/services/api/downloadService.js:173 | `sort((a, b) => key(b) - key(a))`: a permutation of the input in non-increasing key order |
| Seqs.SortedPrefix | src/services/api/downloadService.js:174 | a prefix of a sorted list is sorted, and nothing left out has a higher key than an element kept |
| Seqs.TopFacts | src/services/api/downloadService.js:179-182 | for any sorted prefix of the filtered elements: everything kept satisfies the filter, the prefix is sorted and part of the input, and nothing left out ranks higher |
| Seqs.TopBy | src/services/api/downloadService.js:179-182 | filter, sort descending, `slice(0, n)`: exactly min(n, number of matches) elements, all matching, sorted, drawn from the input, and no match left out ranks above one kept |
| Text.Lower | src/services/api/songsService.js:42 | `toLowerCase` on ASCII: same length, each character lower-cased |
| Text.LowerIdempotent | src/services/api/songsService.js:53 | lower-casing twice is lower-casing once |
| Text.ContainsEmpty | src/services/api/songsService.js:44 | every string `includes` the empty string |
| Text.ContainsAt | src/services/api/songsService.js:44 | `includes` holds when the needle starts at some position |
| Text.ContainsWitness | src/services/api/songsService.js:44 | conversely, when `includes` holds the needle starts at some position |
| Text.TrimStart | src/services/api/downloadService.js:141 | the leading white space, and only it, is removed |
| Text.TrimEnd | src/services/api/downloadService.js:141 | the trailing white space, and only it, is removed |
| Text.TrimEmptyIffBlank | src/components/pages/DownloadManager.jsx:75 | `query.trim()` is empty exactly when every character of the query is white space |
| Text.NatToString | src/components/pages/Profile.jsx:93 | `${n}`: at least one digit, one digit exactly below 10, two digits from 10 to 99 |
| Text.NatToStringRoundTrip | src/components/pages/Profile.jsx:93 | reading the decimal text back gives the number |
| Text.PadStart2 | src/components/molecules/TrackItem.jsx:20 | `padStart(2, "0")`: a text of two or more characters is unchanged; a shorter one is filled to two characters with leading `0`s and ends with the original text |
| Text.Clock | src/components/molecules/TrackItem.jsx:20 | the `m:ss` text has at least four characters and a colon third from the end |
| Text.ClockRoundTrip | src/components/molecules/TrackItem.jsx:18-20 | parsing `m:ss` gives back minutes·60 + seconds |
| Catalog.MergeSong | src/services/api/songsService.js:73 | `{ ...song, ...patch }`: each field takes the patch's value when the patch has one and keeps the song's otherwise; the empty patch changes nothing |
| Catalog.MergeAlbum | src/services/api/albumsService.js:72 | the same, field by field, for albums |
| Catalog.MergePlaylist | src/services/api/playlistsService.js:49 | the same, field by field, for playlists |
| Catalog.MergeGenre | src/services/api/genresService.js:64 | the same, field by field, for genres |
| Catalog.MergeIdempotent | src/services/api/songsService.js:73 | applying the same patch twice equals applying it once, for all four entities |
| SongsService.GetById | src/services/api/songsService.js:31-38 | a stored song with the id, exactly when one exists; otherwise the error "Song not found" |
| SongsService.Search | src/services/api/songsService.js:40-48 | in store order, every copy of every song whose lower-cased title, artist or album contains the lower-cased query, and nothing else |
| SongsService.SearchEmptyQueryReturnsAll | src/services/api/songsService.js:42-47 | the empty query returns the whole list |
| SongsService.GetByGenre | src/services/api/songsService.js:50-55 | in order, exactly the songs whose genre equals the argument ignoring case |
| SongsService.SongStore.constructor | src/services/api/songsService.js:10 | the table starts as the loaded list |
| SongsService.SongStore.Create | src/services/api/songsService.js:57-65 | the new song is the data with the next id, appended last; its id is above every existing id (1 on an empty table, where the source computes `-Infinity`: see Findings); unique ids stay unique |
| SongsService.SongStore.Update | src/services/api/songsService.js:67-75 | absent id: "Song not found" and no change; else only the first matching entry becomes the merge of the entry and the patch, and it is returned |
| SongsService.SongStore.Delete | src/services/api/songsService.js:77-85 | absent id: "Song not found" and no change; else the first matching entry is spliced out and returned |
| AlbumsService.GetById | src/services/api/albumsService.js:31-38 | a stored album with the id, or "Album not found" exactly when none has it |
| AlbumsService.Search | src/services/api/albumsService.js:40-47 | in order, exactly the albums whose lower-cased name or artist contains the lower-cased query |
| AlbumsService.GetByArtist | src/services/api/albumsService.js:49-54 | in order, exactly the albums whose artist equals the argument ignoring case |
| AlbumsService.AlbumStore.constructor | src/services/api/albumsService.js:10 | the table starts as the loaded list |
| AlbumsService.AlbumStore.Create | src/services/api/albumsService.js:56-64 | next id, appended last, above every id (1 on an empty table, see Findings), unique ids kept |
| AlbumsService.AlbumStore.Update | src/services/api/albumsService.js:66-74 | "Album not found" with no change, or only the matched entry merged with the patch |
| AlbumsService.AlbumStore.Delete | src/services/api/albumsService.js:76-84 | "Album not found" with no change, or the matched entry spliced out and returned |
| GenresService.GetById | src/services/api/genresService.js:31-38 | a stored genre with the id, or "Genre not found" exactly when none has it |
| GenresService.Search | src/services/api/genresService.js:40-46 | in order, exactly the genres whose lower-cased name contains the lower-cased query |
| GenresService.GenreStore.constructor | src/services/api/genresService.js:10 | the table starts as the loaded list |
| GenresService.GenreStore.Create | src/services/api/genresService.js:48-56 | next id, appended last, above every id (1 on an empty table, see Findings), unique ids kept |
| GenresService.GenreStore.Update | src/services/api/genresService.js:58-66 | "Genre not found" with no change, or only the matched entry merged with the patch |
| GenresService.GenreStore.Delete | src/services/api/genresService.js:68-76 | "Genre not found" with no change, or the matched entry spliced out and returned |
| PlaylistsService.GetById | src/services/api/playlistsService.js:9-16 | a stored playlist with the id, or "Playlist not found" exactly when none has it |
| PlaylistsService.Search | src/services/api/playlistsService.js:18-25 | in order, exactly the playlists whose lower-cased name or description contains the lower-cased query |
| PlaylistsService.GetPublicPlaylists | src/services/api/playlistsService.js:27-30 | in order, exactly the public playlists |
| PlaylistsService.PlaylistStore.constructor | src/services/api/playlistsService.js:1 | the table starts as the imported list |
| PlaylistsService.PlaylistStore.Create | src/services/api/playlistsService.js:32-41 | next id and the creation time, appended last, above every id (1 on an empty table, see Findings), unique ids kept |
| PlaylistsService.PlaylistStore.Update | src/services/api/playlistsService.js:43-51 | "Playlist not found" with no change, or only the matched entry merged with the patch |
| PlaylistsService.PlaylistStore.Delete | src/services/api/playlistsService.js:53-61 | "Playlist not found" with no change, or the matched entry spliced out and returned |
| PlaylistsService.PlaylistStore.AddSongToPlaylist | src/services/api/playlistsService.js:63-73 | "Playlist not found" with no change; else that playlist alone gets the song appended unless a song with its id is present |
| PlaylistsService.PlaylistStore.RemoveSongFromPlaylist | src/services/api/playlistsService.js:75-83 | "Playlist not found" with no change; else that playlist alone loses every song with the id, the rest in order |
| UserLibrary.PushRecent | src/services/api/userLibraryService.js:39-43 | the played song first, no other entry with its id, the rest a prefix of the old history without that id, at most ten entries, and as many as fit |
| UserLibrary.PushRecentKeepsOrder | src/services/api/userLibraryService.js:39-43 | the entries after the first are older entries in their previous relative order |
| UserLibrary.LibraryStore.constructor | src/services/api/userLibraryService.js:1 | the store starts as the imported record |
| UserLibrary.LibraryStore.GetLibrary | src/services/api/userLibraryService.js:4-7 | a copy of the whole record |
| UserLibrary.LibraryStore.GetLists | src/services/api/userLibraryService.js:47-60 | copies of the saved songs, saved albums and history |
| UserLibrary.LibraryStore.AddSongToLibrary | src/services/api/userLibraryService.js:9-15 | the saved songs gain the song unless its id is saved; nothing else changes; the new record is returned |
| UserLibrary.LibraryStore.RemoveSongFromLibrary | src/services/api/userLibraryService.js:17-21 | every saved song with the id is dropped, the rest keep their order; nothing else changes |
| UserLibrary.LibraryStore.AddAlbumToLibrary | src/services/api/userLibraryService.js:23-29 | the same for saved albums |
| UserLibrary.LibraryStore.RemoveAlbumFromLibrary | src/services/api/userLibraryService.js:31-35 | the same for saved albums |
| UserLibrary.LibraryStore.AddToRecentlyPlayed | src/services/api/userLibraryService.js:37-45 | the history becomes the pushed history; saved songs, albums and playlists are unchanged |
| DownloadService.TotalSizeConcat | src/services/api/downloadService.js:102-103 | the total size of two lists appended is the sum of their totals |
| DownloadService.TotalSizeSplit | src/services/api/downloadService.js:114-116 | the total splits around any one record |
| DownloadService.TotalSizeRemoveAt | src/services/api/downloadService.js:115-116 | splicing a record out takes exactly its size off the total |
| DownloadService.TotalSizeReplace | src/services/api/downloadService.js:161-163 | replacing a record by one of the same size keeps the total |
| DownloadService.AlbumPlanRecords | src/services/api/downloadService.js:67-95 | every record the album loop builds is a fresh, never-played song record carrying the album id, for a song not yet downloaded |
| DownloadService.AlbumPlanIds | src/services/api/downloadService.js:67-95 | the ids the loop builds are, in album order, exactly the ids of the album's songs that are not yet downloaded |
| DownloadService.AlbumPlanRepeatedSong | src/services/api/downloadService.js:69-72 | a song listed twice in one album and not yet stored is appended twice, since only stored records are checked |
| DownloadService.DownloadStore.constructor | src/services/api/downloadService.js:1-2 | no records, nothing used; the invariant holds |
| DownloadService.DownloadStore.DownloadSong | src/services/api/downloadService.js:20-55 | for a size in the simulated range, keeps the invariant (total = sum of sizes ≤ limit); "Song already downloaded", then "Storage limit exceeded", each changing nothing; else exactly one never-played record appended and the total grows by its size |
| DownloadService.DownloadStore.DownloadAlbum | src/services/api/downloadService.js:57-105 | for sizes in the simulated range, keeps the invariant; "Album has no songs to download" for a missing or empty list; all-or-nothing against the limit; on success the planned records are appended and returned and their total added |
| DownloadService.DownloadStore.RemoveDownload | src/services/api/downloadService.js:107-118 | keeps the invariant; "Download not found" with no change; else only the first record with the id is spliced out and returned, and its size is subtracted |
| DownloadService.DownloadStore.ClearAll | src/services/api/downloadService.js:120-126 | returns the previous count and leaves no records and a zero total |
| DownloadService.DownloadStore.UpdatePlayCount | src/services/api/downloadService.js:158-167 | keeps the invariant and the total; "Download not found" with no change; else only the first record with the id has its play count raised by one and its last-played time set |
| DownloadService.GetById | src/services/api/downloadService.js:11-18 | a stored record with the id, or "Download not found" exactly when none has it |
| DownloadService.UsagePercentage | src/services/api/downloadService.js:134 | within half a point of 100·used/limit (halves rounded up), and in 0..100 while the total is within the limit |
| DownloadService.GetStorageInfo | src/services/api/downloadService.js:128-137 | used + available = limit; the record count; a percentage in 0..100 and non-negative available space while within the limit |
| DownloadService.SearchDownloads | src/services/api/downloadService.js:139-151 | a blank query returns every record; otherwise, in order, every copy of every record matching the untrimmed lower-cased query, and nothing else |
| DownloadService.GetDownloadsByType | src/services/api/downloadService.js:153-156 | in order, every copy of every record of the type, and nothing else |
| DownloadService.GetRecentlyPlayed | src/services/api/downloadService.js:169-175 | min(10, number played) played records, latest first, drawn from the store; no played record left out was played later than one returned |
| DownloadService.GetMostPlayed | src/services/api/downloadService.js:177-183 | min(10, number played) records with a positive play count, in non-increasing count order; none left out was played more often than one returned |
| App.Without | src/App.jsx:82 | `filter(id => id !== x)`: the id is gone; every other id keeps its count and order |
| App.Toggled | src/App.jsx:78-86 | the toggled id is present afterwards exactly when it was absent before; every other id keeps its count |
| App.ToggleTwiceRestoresMembership | src/App.jsx:78-88 | two successful toggles of the same song restore which songs are favourites |
| App.ToggleTwiceFromAbsent | src/App.jsx:78-88 | starting from a song that is not a favourite, two toggles restore the exact list |
| App.AppController.constructor | src/App.jsx:18-22 | no song, not playing, empty queue, no favourites, no downloads |
| App.AppController.LoadUserData | src/App.jsx:25-41 | when both reads succeed the favourites are the saved songs' ids and the downloads the records' ids, in order; on failure nothing changes |
| App.AppController.HandlePlay | src/App.jsx:43-53 | the song becomes current and playing, whether or not the history write succeeds; the id lists are unchanged |
| App.AppController.HandlePause | src/App.jsx:55-57 | only the playing flag is cleared |
| App.AppController.HandleNext | src/App.jsx:59-63 | only pauses: current song and queue unchanged |
| App.AppController.HandlePrevious | src/App.jsx:65-69 | only pauses: current song and queue unchanged |
| App.AppController.HandleToggleFavorite | src/App.jsx:76-92 | on success the favourites are toggled for the song's id; on failure they are unchanged; nothing else changes |
| App.AppController.HandleDownloadSong | src/App.jsx:94-102 | on success the song's id is appended; on failure nothing changes |
| App.AppController.HandleDownloadAlbum | src/App.jsx:104-113 | on success every id of the album (none if its list is absent) is appended, so ids already present gain another copy; on failure nothing changes |
| App.AppController.HandleRemoveDownload | src/App.jsx:115-123 | on success every occurrence of the id is dropped; on failure nothing changes |
| DownloadManager.ByTabSubset | src/components/pages/DownloadManager.jsx:63-72 | the tab step only drops and reorders records |
| DownloadManager.FilterDownloads | src/components/pages/DownloadManager.jsx:60-85 | drawn from the downloads; the records shown keep the tab's order; a blank query shows the tab's list; with a non-blank query every record shown matches it, and the records shown are exactly the tab's records that match |
| DownloadManager.SongsTab | src/components/pages/DownloadManager.jsx:64-65 | blank query: in order, exactly the records of type "song" |
| DownloadManager.RecentTab | src/components/pages/DownloadManager.jsx:66-68 | blank query: exactly the records with a last-played time, latest first |
| DownloadManager.PopularTab | src/components/pages/DownloadManager.jsx:69-71 | blank query: exactly the records played at least once, in non-increasing play count |
| DownloadManager.RecentSearchStaysSorted | src/components/pages/DownloadManager.jsx:66-82 | with any query the recent tab stays latest first |
| DownloadManager.PopularSearchStaysSorted | src/components/pages/DownloadManager.jsx:69-82 | with any query the popular tab stays in non-increasing play count |
| DownloadManager.AllTabBlankQuery | src/components/pages/DownloadManager.jsx:61-75 | the all tab with a blank query shows the downloads unchanged |
| DownloadManager.TabCountsAgree | src/components/pages/DownloadManager.jsx:143-148 | each tab's counter is the length of the list the tab shows with a blank query |
| DownloadManager.DownloadsPage.constructor | src/components/pages/DownloadManager.jsx:23-25 | no downloads and no storage figures yet |
| DownloadManager.DownloadsPage.HandleRemoveDownloadLocal | src/components/pages/DownloadManager.jsx:91-104 | the store removes the record when it has it (keeping its invariant), and only then does the app drop the id; either way every record with the id leaves the page's list and the page shows the storage figures of the store as it now is, because the app's handler reports but does not rethrow; the app's queue, favourites and playback are unchanged |
| DownloadManager.DownloadsPage.HandlePlayDownload | src/components/pages/DownloadManager.jsx:125-133 | the store's first record with the id is played once more, keeping the invariant; that updated record replaces the page's record with the id and is the one handed to the player; when the store has no such record the page is unchanged and the record is played as it is; the player gets exactly one record either way |
| MusicPlayer.MinutesAndSeconds | src/components/organisms/MusicPlayer.jsx:69-70 | for non-negative seconds, the floors of s/60 and s mod 60 are the minutes and seconds of the whole seconds elapsed |
| MusicPlayer.FormatTime | src/components/organisms/MusicPlayer.jsx:68-72 | the clock of ⌊s⌋ div 60 and ⌊s⌋ mod 60, and it parses back to ⌊s⌋ |
| MusicPlayer.PlayPauseAsWritten | src/components/organisms/MusicPlayer.jsx:74-80 | pause is called exactly when playing and a handler exists; play exactly when not playing and a handler exists, with no argument |
| MusicPlayer.ResumeAsWrittenLosesSong | src/components/organisms/MusicPlayer.jsx:78 | as written, play on a paused song leaves the app playing with no current song, and the bar no longer renders |
| MusicPlayer.PlayPause | src/components/organisms/MusicPlayer.jsx:74-80 | the corrected dispatch: the same calls, with play receiving the current song |
| MusicPlayer.PlayPauseToggles | src/components/organisms/MusicPlayer.jsx:74-82 | with the corrected dispatch a press flips playing, keeps the song and keeps the bar rendered |
| MusicPlayer.IconMatchesLevel | src/components/organisms/MusicPlayer.jsx:36 | the crossed-out icon shows exactly when the audio level is 0; the low icon exactly when it is in (0, 0.5); the high icon exactly when it is at least 0.5 |
| MusicPlayer.VolumeControl.constructor | src/components/organisms/MusicPlayer.jsx:20-21 | full volume, not muted |
| MusicPlayer.VolumeControl.HandleVolumeChange | src/components/organisms/MusicPlayer.jsx:58-62 | the slider value becomes the volume and the audio level; muted exactly at 0 |
| MusicPlayer.VolumeControl.ToggleMute | src/components/organisms/MusicPlayer.jsx:64-66 | mute flips, the volume is kept, and the audio level is 0 when newly muted and the kept volume when unmuted |
| TrackItem.FormatDuration | src/components/molecules/TrackItem.jsx:17-21 | the `m:ss` text parses back to the duration; below ten minutes it is four characters |
| TrackItem.HandlePlayPause | src/components/molecules/TrackItem.jsx:23-29 | the track goes to pause exactly when playing and that handler exists, to play exactly when not playing and that handler exists |
| TrackItem.Subtitle | src/components/molecules/TrackItem.jsx:67-70 | the artist, then the separator and the album exactly when the album is shown and non-empty |
| Profile.FormatListeningTime | src/components/pages/Profile.jsx:91-94 | below an hour the text is the minutes followed by `m` |
| Profile.LeadingDigits | src/components/pages/Profile.jsx:93 | the number of leading digits of a string, and the character after them is not a digit |
| Profile.LeadingDigitsOfConcat | src/components/pages/Profile.jsx:93 | the leading digits of digits followed by a non-digit are exactly the first part |
| Profile.ParseHourParts | src/components/pages/Profile.jsx:91-94 | digits, `h `, digits and `m` read back as hours times 60 plus minutes, for a positive hour and minutes below 60 |
| Profile.ParseHoursForm | src/components/pages/Profile.jsx:91-94 | the hour form built from `h` hours and `m` minutes reads back as `60h + m` |
| Profile.ListeningTimeRoundTrip | src/components/pages/Profile.jsx:91-94 | the rendered `m` or `h m` text reads back as the minutes it was made from |
| Profile.StatsOf | src/components/pages/Profile.jsx:33-38 | the counts are the saved songs, saved albums and playlists (0 when the list is missing) |
| Profile.StatsAfterSavingSong | src/components/pages/Profile.jsx:34 | saving a new song raises the song count by one; saving a saved song does not |
| Profile.StatsAfterRemovingSong | src/components/pages/Profile.jsx:34 | removing a song lowers the song count by the number of saved entries with its id; removing an unsaved song changes no count |
| Profile.WithSetting | src/components/pages/Profile.jsx:50-54 | the key takes the value; every other key keeps its presence and its value |
| Profile.ToggledSetting | src/components/pages/Profile.jsx:172 | a toggle click writes the negation of what the setting shows |
| Profile.ToggleTwiceRestores | src/components/pages/Profile.jsx:172 | two clicks on a switch give back the settings it started from |
| Profile.ProfilePage.constructor | src/components/pages/Profile.jsx:13-25 | the initial settings and zero counts |
| Profile.ProfilePage.LoadProfile | src/components/pages/Profile.jsx:28-38 | the counts of the library read; the settings are unchanged |
| Profile.ProfilePage.HandleSettingChange | src/components/pages/Profile.jsx:50-56 | the settings take the one-key update; the counts are unchanged |
| Profile.ProfilePage.ClickToggle | src/components/pages/Profile.jsx:168-172 | a toggle click leaves the settings toggled at that key |

## Left out

- Simulated latency: every `setTimeout` wait is dropped and each call is synchronous. Interleaving of overlapping handlers is not modelled.
- Randomness is a parameter:
  - the simulated file size of each download (a parameter; `DownloadSong` and `DownloadAlbum` require it to lie in the range `IsSimulatedSize` names);
  - the mock listening time.
- Clock readings are integer parameters. An ISO timestamp is its reading, and `new Date(b) - new Date(a)` is the difference of the readings.
- `parseInt(id)` is the identity: ids are integers.
- `toLowerCase` lower-cases ASCII letters only; Unicode case folding is not modelled.
- The JSON loaders, the `isLoading` and `loadError` flags, and `getAll` (it copies the array but shares the records) are not modelled.
- Toasts, routing, animation, rendering, `formatFileSize` (logarithms and `toFixed`), the audio element effects, progress and seeking are not modelled.
- Not modelled: `handleClearAll` (it waits on `window.confirm`), `loadDownloads`, and the queue panel.
- Floating point is not modelled.
- DownloadService.UsagePercentage: the ratio is exact, not a floating-point quotient. `Math.round` rounds halves up, as in the model.
- Seqs.SortDesc is proved sorted and a permutation; that it is stable, like `Array.prototype.sort`, is not proved. Equal keys may come out in any order as far as the contracts go.
- DownloadService.DownloadStore.DownloadAlbum takes one size per album song. The source draws a size only for songs it keeps, so the sizes of skipped songs are unused.
- UserLibrary.Library always holds `savedSongs` and `savedAlbums`, so the `?.length || 0` fallbacks of the profile counts only apply to `playlists`.
- Profile.FormatListeningTime states only the below-an-hour form in its own contract. The hour form is covered by `Profile.ListeningTimeRoundTrip`.
- DownloadManager.DownloadsPage.HandlePlayDownload: the page's list and the store share record objects, so `updatePlayCount` changes the page's record in place. The model has no object identity; it takes the page's first record with the id to be the store's first record with the id, and writes the updated record into both.
- The downloads page's play handler passes a download record to `onPlay`; the model stops at the hand-over and does not follow the record into the player.
- The artist line separator is the three characters the source file holds, the UTF-8 bytes of a bullet read as Windows-1252, and is modelled as those characters.

## Findings

| source | as written | input that shows it | evidently intended | confidence | as-written member | corrected member |
|---|---|---|---|---|---|---|
| src/services/api/songsService.js:61 (also albumsService.js:60, genresService.js:52, playlistsService.js:36) | `Math.max(...ids) + 1` on an empty table is `-Infinity` | `create` after every entry has been deleted | a finite fresh id, such as 1 | not executed | Seqs.NextIdAsWritten | Seqs.NextId |
| src/components/organisms/MusicPlayer.jsx:78 | `onPlay?.()` calls the app's `handlePlay` with no song | play on a paused song: the app sets `currentSong` to `undefined` and `isPlaying` to true, and the bar stops rendering | resuming the current song | not executed | MusicPlayer.PlayPauseAsWritten, MusicPlayer.ResumeAsWrittenLosesSong | MusicPlayer.PlayPause, MusicPlayer.PlayPauseToggles |
