/**
 * The download service: a module-level list of downloaded songs and a running
 * total of their simulated file sizes, kept under a 5 GiB limit. Downloads of
 * a song or of a whole album append records; removal, clearing and play
 * counting change the list in place; the queries read it.
 *
 * The random file size of each download and the clock reading stamped on a
 * record are parameters.
 */
module DownloadService {
  import opened Wrappers
  import opened Seqs
  import opened Text
  import opened Catalog

  /** 5 GiB. */
  const STORAGE_LIMIT: int := 5 * 1024 * 1024 * 1024

  /** How many records the recently-played and most-played queries return at most. */
  const ListLimit: nat := 10

  /** A simulated file size, `Math.floor(Math.random() * 2000000) + 3000000`. */
  predicate IsSimulatedSize(n: nat)
  {
    3000000 <= n < 5000000
  }

  /**
   * A downloaded song. `kind` is the record's `type` field; `downloadedAt`
   * and `lastPlayed` are clock readings; `albumId` is set only by album downloads.
   */
  datatype Download = Download(
    id: int, kind: string, title: string, artist: string, album: string, duration: nat,
    coverUrl: string, genre: string, fileSize: nat, downloadedAt: int,
    lastPlayed: Option<int>, playCount: nat, albumId: Option<int>)

  function DownloadId(d: Download): int { d.id }

  /** The record a download of `song` stores: never played, play count 0. */
  function SongDownload(song: Song, fileSize: nat, now: int, albumId: Option<int>): Download
  {
    Download(song.id, "song", song.title, song.artist, song.album, song.duration,
             song.coverUrl, song.genre, fileSize, now, None, 0, albumId)
  }

  /** A stored record has the id and type 'song' (the duplicate test of both downloads). */
  predicate IsDownloaded(records: seq<Download>, id: int)
  {
    exists i :: 0 <= i < |records| && records[i].id == id && records[i].kind == "song"
  }

  /** The song is not yet downloaded. */
  predicate IsNewSong(records: seq<Download>, s: Song)
  {
    !IsDownloaded(records, s.id)
  }

  /** The sum of the records' file sizes. */
  function TotalSize(records: seq<Download>): nat
  {
    if records == [] then 0
    else TotalSize(records[..|records| - 1]) + records[|records| - 1].fileSize
  }

  lemma {:induction false} TotalSizeConcat(a: seq<Download>, b: seq<Download>)
    ensures TotalSize(a + b) == TotalSize(a) + TotalSize(b)
    decreases |b|
  {
    if b == [] {
      assert a + b == a;
    } else {
      var n := |b| - 1;
      assert (a + b)[..|a + b| - 1] == a + b[..n];
      TotalSizeConcat(a, b[..n]);
    }
  }

  /** The total splits around any one record. */
  lemma TotalSizeSplit(s: seq<Download>, i: nat)
    requires i < |s|
    ensures TotalSize(s) == TotalSize(s[..i]) + s[i].fileSize + TotalSize(s[i + 1..])
  {
    var front, back := s[..i], s[i + 1..];
    assert s == (front + [s[i]]) + back;
    TotalSizeConcat(front + [s[i]], back);
    assert (front + [s[i]])[..i] == front;
  }

  /** Removing a record takes its size off the total. */
  lemma TotalSizeRemoveAt(s: seq<Download>, i: nat)
    requires i < |s|
    ensures TotalSize(RemoveAt(s, i)) == TotalSize(s) - s[i].fileSize
  {
    TotalSizeSplit(s, i);
    TotalSizeConcat(s[..i], s[i + 1..]);
  }

  /** Replacing a record by one of the same size keeps the total. */
  lemma TotalSizeReplace(s: seq<Download>, i: nat, d: Download)
    requires i < |s| && d.fileSize == s[i].fileSize
    ensures TotalSize(s[i := d]) == TotalSize(s)
  {
    var t := s[i := d];
    TotalSizeSplit(s, i);
    TotalSizeSplit(t, i);
    assert t[..i] == s[..i] && t[i + 1..] == s[i + 1..];
  }

  // ---------------------------------------------------------------- album downloads

  /**
   * The records `downloadAlbum` builds for `songs` (one size drawn per song):
   * in album order, one per song that is not yet downloaded, each carrying the album id.
   */
  function AlbumPlan(records: seq<Download>, songs: seq<Song>, sizes: seq<nat>,
                     now: int, albumId: int): seq<Download>
    requires |sizes| == |songs|
  {
    if songs == [] then []
    else
      var n := |songs| - 1;
      var before := AlbumPlan(records, songs[..n], sizes[..n], now, albumId);
      if IsDownloaded(records, songs[n].id) then before
      else before + [SongDownload(songs[n], sizes[n], now, Some(albumId))]
  }

  /** A record an album download creates: a never-played song record of the album, not yet downloaded. */
  predicate IsFreshAlbumRecord(records: seq<Download>, d: Download, now: int, albumId: int)
  {
    d.albumId == Some(albumId) && d.kind == "song" && d.playCount == 0 &&
    d.lastPlayed.None? && d.downloadedAt == now && !IsDownloaded(records, d.id)
  }

  /** Every planned record is a fresh record of the album for a song not yet downloaded. */
  lemma {:induction false} AlbumPlanRecords(records: seq<Download>, songs: seq<Song>,
                                            sizes: seq<nat>, now: int, albumId: int)
    requires |sizes| == |songs|
    ensures forall d :: d in AlbumPlan(records, songs, sizes, now, albumId) ==>
      IsFreshAlbumRecord(records, d, now, albumId)
  {
    if songs != [] {
      var n := |songs| - 1;
      var before := AlbumPlan(records, songs[..n], sizes[..n], now, albumId);
      AlbumPlanRecords(records, songs[..n], sizes[..n], now, albumId);
      if !IsDownloaded(records, songs[n].id) {
        var d := SongDownload(songs[n], sizes[n], now, Some(albumId));
        assert IsFreshAlbumRecord(records, d, now, albumId);
        var plan := before + [d];
        assert AlbumPlan(records, songs, sizes, now, albumId) == plan;
      }
    }
  }

  /** The ids planned are, in album order, exactly those of the album songs not yet downloaded. */
  lemma {:induction false} AlbumPlanIds(records: seq<Download>, songs: seq<Song>,
                                        sizes: seq<nat>, now: int, albumId: int)
    requires |sizes| == |songs|
    ensures Ids(AlbumPlan(records, songs, sizes, now, albumId), DownloadId)
         == Ids(Filter(songs, s => IsNewSong(records, s)), SongId)
  {
    var p := (s: Song) => IsNewSong(records, s);
    if songs != [] {
      var n := |songs| - 1;
      var front, last := songs[..n], songs[n];
      var before := AlbumPlan(records, front, sizes[..n], now, albumId);
      AlbumPlanIds(records, front, sizes[..n], now, albumId);
      assert songs == front + [last];
      FilterConcat(front, [last], p);
      assert [last][1..] == [];
      if IsNewSong(records, last) {
        assert Filter([last], p) == [last];
        var d := SongDownload(last, sizes[n], now, Some(albumId));
        assert AlbumPlan(records, songs, sizes, now, albumId) == before + [d];
        IdsConcat(before, [d], DownloadId);
        IdsConcat(Filter(front, p), [last], SongId);
      } else {
        assert Filter([last], p) == [];
        assert AlbumPlan(records, songs, sizes, now, albumId) == before;
        assert Filter(front, p) + [] == Filter(front, p);
      }
    }
  }

  /** A song listed twice in one album, not yet downloaded, is stored twice. */
  lemma AlbumPlanRepeatedSong(records: seq<Download>, song: Song, a: nat, b: nat, now: int, albumId: int)
    requires !IsDownloaded(records, song.id)
    ensures AlbumPlan(records, [song, song], [a, b], now, albumId)
         == [SongDownload(song, a, now, Some(albumId)), SongDownload(song, b, now, Some(albumId))]
  {
    assert [song, song][..1] == [song] && [a, b][..1] == [a];
    assert [song][..0] == [] && [a][..0] == [];
    assert AlbumPlan(records, [song], [a], now, albumId) == [SongDownload(song, a, now, Some(albumId))];
  }

  // ---------------------------------------------------------------- the store

  /** The module-level `downloadedContent` list and `storageUsed` total. */
  class DownloadStore {
    var records: seq<Download>
    var storageUsed: int

    /** The total is the sum of the stored sizes and within the limit. */
    ghost predicate Valid()
      reads this
    {
      storageUsed == TotalSize(records) && storageUsed <= STORAGE_LIMIT
    }

    constructor ()
      ensures Valid() && records == [] && storageUsed == 0
    {
      records := [];
      storageUsed := 0;
    }

    /**
     * `downloadSong`: refuses a song already downloaded, then a size that
     * would pass the limit; otherwise appends the new record.
     */
    method DownloadSong(song: Song, fileSize: nat, now: int) returns (r: Result<Download>)
      requires Valid() && IsSimulatedSize(fileSize)
      modifies this
      ensures Valid()
      ensures IsDownloaded(old(records), song.id) ==>
        r == Err("Song already downloaded") && records == old(records) && storageUsed == old(storageUsed)
      ensures !IsDownloaded(old(records), song.id) && old(storageUsed) + fileSize > STORAGE_LIMIT ==>
        r == Err("Storage limit exceeded") && records == old(records) && storageUsed == old(storageUsed)
      ensures !IsDownloaded(old(records), song.id) && old(storageUsed) + fileSize <= STORAGE_LIMIT ==>
        r == Ok(SongDownload(song, fileSize, now, None)) &&
        records == old(records) + [r.value] && storageUsed == old(storageUsed) + fileSize
      ensures r.Ok? ==> IsDownloaded(records, song.id)
    {
      if IsDownloaded(records, song.id) {
        return Err("Song already downloaded");
      }
      if storageUsed + fileSize > STORAGE_LIMIT {
        return Err("Storage limit exceeded");
      }
      var d := SongDownload(song, fileSize, now, None);
      assert (records + [d])[..|records|] == records;
      records := records + [d];
      storageUsed := storageUsed + fileSize;
      assert records[|records| - 1] == d;
      r := Ok(d);
    }

    /**
     * `downloadAlbum`: refuses an album without songs; builds the records of
     * the songs not yet downloaded; refuses the whole album if their total
     * would pass the limit; otherwise appends them all.
     */
    method DownloadAlbum(album: Album, sizes: seq<nat>, now: int) returns (r: Result<seq<Download>>)
      requires Valid()
      requires album.songs.Some? ==> |sizes| == |album.songs.value|
      requires forall i :: 0 <= i < |sizes| ==> IsSimulatedSize(sizes[i])
      modifies this
      ensures Valid()
      ensures album.songs.None? || album.songs.value == [] ==>
        r == Err("Album has no songs to download") && records == old(records) && storageUsed == old(storageUsed)
      ensures album.songs.Some? && album.songs.value != [] ==>
        var plan := AlbumPlan(old(records), album.songs.value, sizes, now, album.id);
        if old(storageUsed) + TotalSize(plan) > STORAGE_LIMIT then
          r == Err("Storage limit exceeded") && records == old(records) && storageUsed == old(storageUsed)
        else
          r == Ok(plan) && records == old(records) + plan && storageUsed == old(storageUsed) + TotalSize(plan)
    {
      if album.songs.None? || |album.songs.value| == 0 {
        return Err("Album has no songs to download");
      }
      var songs := album.songs.value;
      var downloads: seq<Download> := [];
      var totalSize: nat := 0;
      for i := 0 to |songs|
        invariant downloads == AlbumPlan(records, songs[..i], sizes[..i], now, album.id)
        invariant totalSize == TotalSize(downloads)
      {
        assert songs[..i + 1][..i] == songs[..i] && sizes[..i + 1][..i] == sizes[..i];
        if IsDownloaded(records, songs[i].id) {
          continue;
        }
        var d := SongDownload(songs[i], sizes[i], now, Some(album.id));
        assert (downloads + [d])[..|downloads|] == downloads;
        totalSize := totalSize + d.fileSize;
        downloads := downloads + [d];
      }
      assert songs[..|songs|] == songs && sizes[..|songs|] == sizes;
      if storageUsed + totalSize > STORAGE_LIMIT {
        return Err("Storage limit exceeded");
      }
      TotalSizeConcat(records, downloads);
      records := records + downloads;
      storageUsed := storageUsed + totalSize;
      r := Ok(downloads);
    }

    /** `removeDownload`: splices out the first record with the id and frees its size. */
    method RemoveDownload(id: int) returns (r: Result<Download>)
      requires Valid()
      modifies this
      ensures Valid()
      ensures !HasId(old(records), id, DownloadId) ==>
        r == Err("Download not found") && records == old(records) && storageUsed == old(storageUsed)
      ensures var i := IndexOfId(old(records), id, DownloadId);
        i != -1 ==> (r == Ok(old(records)[i]) && records == RemoveAt(old(records), i) &&
                     storageUsed == old(storageUsed) - old(records)[i].fileSize)
    {
      var i := IndexOfId(records, id, DownloadId);
      if i == -1 {
        return Err("Download not found");
      }
      var d := records[i];
      var rest := RemoveAt(records, i);
      TotalSizeRemoveAt(records, i);
      records := rest;
      storageUsed := storageUsed - d.fileSize;
      r := Ok(d);
    }

    /** `clearAll`: empties the list, resets the total and reports how many records there were. */
    method ClearAll() returns (clearedCount: nat)
      modifies this
      ensures Valid()
      ensures clearedCount == |old(records)| && records == [] && storageUsed == 0
    {
      clearedCount := |records|;
      records := [];
      storageUsed := 0;
    }

    /** `updatePlayCount`: the first record with the id is played once more, at `now`. */
    method UpdatePlayCount(id: int, now: int) returns (r: Result<Download>)
      requires Valid()
      modifies this
      ensures Valid()
      ensures storageUsed == old(storageUsed)
      ensures var i := IndexOfId(old(records), id, DownloadId);
        if i == -1 then r == Err("Download not found") && records == old(records)
        else
          r == Ok(old(records)[i].(playCount := old(records)[i].playCount + 1, lastPlayed := Some(now))) &&
          records == old(records)[i := r.value]
    {
      var i := IndexOfId(records, id, DownloadId);
      if i == -1 {
        return Err("Download not found");
      }
      var d := records[i].(playCount := records[i].playCount + 1, lastPlayed := Some(now));
      TotalSizeReplace(records, i, d);
      records := records[i := d];
      r := Ok(d);
    }
  }

  // ---------------------------------------------------------------- queries

  /** `getById`: the first record with the id, or the error "Download not found". */
  function GetById(records: seq<Download>, id: int): (r: Result<Download>)
    ensures r.Ok? <==> HasId(records, id, DownloadId)
    ensures r.Ok? ==> r.value.id == id && r.value in records
    ensures r.Err? ==> r.message == "Download not found"
  {
    var i := IndexOfId(records, id, DownloadId);
    if i == -1 then Err("Download not found") else Ok(records[i])
  }

  datatype StorageInfo = StorageInfo(
    used: int, limit: int, available: int, usagePercentage: int, totalDownloads: nat)

  /**
   * `Math.round(used / limit * 100)` in exact arithmetic: the whole percentage
   * nearest to the exact one, halves rounded up.
   */
  function UsagePercentage(used: int): (pct: int)
    ensures -STORAGE_LIMIT <= 2 * (100 * used - pct * STORAGE_LIMIT) < STORAGE_LIMIT
    ensures 0 <= used <= STORAGE_LIMIT ==> 0 <= pct <= 100
  {
    (200 * used + STORAGE_LIMIT) / (2 * STORAGE_LIMIT)
  }

  /** `getStorageInfo`: what is used and what is left always add up to the limit. */
  function GetStorageInfo(records: seq<Download>, storageUsed: int): (info: StorageInfo)
    ensures info.limit == STORAGE_LIMIT && info.used + info.available == info.limit
    ensures info.used == storageUsed && info.totalDownloads == |records|
    ensures info.usagePercentage == UsagePercentage(storageUsed)
    ensures 0 <= storageUsed <= STORAGE_LIMIT ==> info.available >= 0 && 0 <= info.usagePercentage <= 100
  {
    StorageInfo(storageUsed, STORAGE_LIMIT, STORAGE_LIMIT - storageUsed,
                UsagePercentage(storageUsed), |records|)
  }

  /** The test `searchDownloads` applies: the lower-cased query occurs in the title, artist or album. */
  predicate MatchesQuery(d: Download, query: string)
  {
    var q := Lower(query);
    Contains(Lower(d.title), q) || Contains(Lower(d.artist), q) || Contains(Lower(d.album), q)
  }

  /**
   * `searchDownloads`: a blank query returns every record; any other keeps,
   * in order, every copy of every record that matches the (untrimmed) query.
   */
  function SearchDownloads(records: seq<Download>, query: string): (r: seq<Download>)
    ensures Trim(query) == "" ==> r == records
    ensures Subseq(r, records)
    ensures multiset(r) <= multiset(records)
    ensures Trim(query) != "" ==> forall i :: 0 <= i < |r| ==> MatchesQuery(r[i], query)
    ensures Trim(query) != "" ==>
      forall d :: multiset(r)[d] == if MatchesQuery(d, query) then multiset(records)[d] else 0
  {
    if Trim(query) == "" then
      assert Subseq(Filter(records, d => true), records);
      FilterKeepsAll(records, d => true);
      records
    else
      var r := Filter(records, d => MatchesQuery(d, query));
      FilterCounts(records, d => MatchesQuery(d, query));
      assert forall i :: 0 <= i < |r| ==> r[i] in r;
      r
  }

  predicate HasKind(d: Download, kind: string) { d.kind == kind }

  /** `getDownloadsByType`: in order, every copy of every record of that type. */
  function GetDownloadsByType(records: seq<Download>, kind: string): (r: seq<Download>)
    ensures Subseq(r, records)
    ensures forall d :: multiset(r)[d] == if d.kind == kind then multiset(records)[d] else 0
  {
    FilterCounts(records, d => HasKind(d, kind));
    Filter(records, d => HasKind(d, kind))
  }

  /** `lastPlayed` is set (a non-empty timestamp is truthy). */
  predicate WasPlayed(d: Download) { d.lastPlayed.Some? }

  function LastPlayedKey(d: Download): int
  {
    if d.lastPlayed.Some? then d.lastPlayed.value else 0
  }

  predicate PlayedAtLeastOnce(d: Download) { d.playCount > 0 }

  function PlayCountKey(d: Download): int { d.playCount }

  /**
   * `getRecentlyPlayed`: up to ten played records, most recent first; no
   * played record left out was played later than one returned.
   */
  function GetRecentlyPlayed(records: seq<Download>): (r: seq<Download>)
    ensures |r| == if |Filter(records, WasPlayed)| < ListLimit then |Filter(records, WasPlayed)| else ListLimit
    ensures forall i :: 0 <= i < |r| ==> r[i].lastPlayed.Some?
    ensures SortedDesc(r, LastPlayedKey)
    ensures multiset(r) <= multiset(records)
    ensures forall d :: d in records && d.lastPlayed.Some? && d !in r ==>
      forall i :: 0 <= i < |r| ==> LastPlayedKey(r[i]) >= LastPlayedKey(d)
  {
    TopBy(records, WasPlayed, LastPlayedKey, ListLimit)
  }

  /**
   * `getMostPlayed`: up to ten records played at least once, most played
   * first; no such record left out was played more often than one returned.
   */
  function GetMostPlayed(records: seq<Download>): (r: seq<Download>)
    ensures |r| == if |Filter(records, PlayedAtLeastOnce)| < ListLimit then |Filter(records, PlayedAtLeastOnce)| else ListLimit
    ensures forall i :: 0 <= i < |r| ==> r[i].playCount > 0
    ensures forall i, j :: 0 <= i < j < |r| ==> r[i].playCount >= r[j].playCount
    ensures multiset(r) <= multiset(records)
    ensures forall d :: d in records && d.playCount > 0 && d !in r ==>
      forall i :: 0 <= i < |r| ==> r[i].playCount >= d.playCount
  {
    TopBy(records, PlayedAtLeastOnce, PlayCountKey, ListLimit)
  }
}
