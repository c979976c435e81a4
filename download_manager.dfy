/**
 * The downloads page: the list it shows for the active tab and search
 * query, the counters on its tabs, and its two handlers for removing and
 * playing a download.
 */
module DownloadManager {
  import opened Wrappers
  import opened Seqs
  import opened Text
  import opened DownloadService
  import App

  /** The tabs of the page; an unknown tab id filters like `All`. */
  datatype Tab = All | Songs | Recent | Popular

  predicate IsSong(d: Download) { d.kind == "song" }

  /**
   * The tab step of `filterDownloads`: songs only; played records, most recent
   * first; records played at least once, most played first; or everything.
   */
  function ByTab(downloads: seq<Download>, tab: Tab): seq<Download>
  {
    match tab
    case All => downloads
    case Songs => Filter(downloads, IsSong)
    case Recent => SortDesc(Filter(downloads, WasPlayed), LastPlayedKey)
    case Popular => SortDesc(Filter(downloads, PlayedAtLeastOnce), PlayCountKey)
  }

  /** The tab step only drops and reorders records. */
  lemma ByTabSubset(downloads: seq<Download>, tab: Tab)
    ensures multiset(ByTab(downloads, tab)) <= multiset(downloads)
  {
    match tab
    case All =>
    case Songs => FilterCounts(downloads, IsSong);
    case Recent => FilterCounts(downloads, WasPlayed);
    case Popular => FilterCounts(downloads, PlayedAtLeastOnce);
  }

  /**
   * `filterDownloads`: the tab step, then, when the trimmed query is not
   * blank, the same search `searchDownloads` applies.
   */
  function FilterDownloads(downloads: seq<Download>, tab: Tab, query: string): (r: seq<Download>)
    ensures Subseq(r, ByTab(downloads, tab))
    ensures Trim(query) == "" ==> r == ByTab(downloads, tab)
    ensures multiset(r) <= multiset(downloads)
    ensures Trim(query) != "" ==> forall i :: 0 <= i < |r| ==> MatchesQuery(r[i], query)
    ensures Trim(query) != "" ==> forall d ::
      multiset(r)[d] == if MatchesQuery(d, query) then multiset(ByTab(downloads, tab))[d] else 0
  {
    var byTab := ByTab(downloads, tab);
    var r := SearchDownloads(byTab, query);
    ByTabSubset(downloads, tab);
    r
  }

  /** With a blank query the songs tab keeps, in order, exactly the records of type 'song'. */
  lemma SongsTab(downloads: seq<Download>, query: string)
    requires Trim(query) == ""
    ensures var r := FilterDownloads(downloads, Songs, query);
      Subseq(r, downloads) && forall d :: multiset(r)[d] == if d.kind == "song" then multiset(downloads)[d] else 0
  {
    assert FilterDownloads(downloads, Songs, query) == ByTab(downloads, Songs) == Filter(downloads, IsSong);
    FilterCounts(downloads, IsSong);
  }

  /** With a blank query the recent tab holds every played record, most recently played first. */
  lemma RecentTab(downloads: seq<Download>, query: string)
    requires Trim(query) == ""
    ensures var r := FilterDownloads(downloads, Recent, query);
      SortedDesc(r, LastPlayedKey) &&
      forall d :: multiset(r)[d] == if d.lastPlayed.Some? then multiset(downloads)[d] else 0
  {
    var f := Filter(downloads, WasPlayed);
    var r := FilterDownloads(downloads, Recent, query);
    assert r == SortDesc(f, LastPlayedKey);
    assert multiset(r) == multiset(f);
    FilterCounts(downloads, WasPlayed);
  }

  /** With a blank query the popular tab holds every record played at least once, most played first. */
  lemma PopularTab(downloads: seq<Download>, query: string)
    requires Trim(query) == ""
    ensures var r := FilterDownloads(downloads, Popular, query);
      SortedDesc(r, PlayCountKey) &&
      forall d :: multiset(r)[d] == if d.playCount > 0 then multiset(downloads)[d] else 0
  {
    var f := Filter(downloads, PlayedAtLeastOnce);
    var r := FilterDownloads(downloads, Popular, query);
    assert r == SortDesc(f, PlayCountKey);
    assert multiset(r) == multiset(f);
    FilterCounts(downloads, PlayedAtLeastOnce);
  }

  /** Searching keeps the order of the recent tab: most recently played first. */
  lemma RecentSearchStaysSorted(downloads: seq<Download>, query: string)
    ensures SortedDesc(FilterDownloads(downloads, Recent, query), LastPlayedKey)
  {
    var recent := ByTab(downloads, Recent);
    assert recent == SortDesc(Filter(downloads, WasPlayed), LastPlayedKey);
    SubseqSorted(FilterDownloads(downloads, Recent, query), recent, LastPlayedKey);
  }

  /** Searching keeps the order of the popular tab: most played first. */
  lemma PopularSearchStaysSorted(downloads: seq<Download>, query: string)
    ensures SortedDesc(FilterDownloads(downloads, Popular, query), PlayCountKey)
  {
    var popular := ByTab(downloads, Popular);
    assert popular == SortDesc(Filter(downloads, PlayedAtLeastOnce), PlayCountKey);
    SubseqSorted(FilterDownloads(downloads, Popular, query), popular, PlayCountKey);
  }

  /** The all tab with a blank query shows the downloads unchanged. */
  lemma AllTabBlankQuery(downloads: seq<Download>, query: string)
    requires Trim(query) == ""
    ensures FilterDownloads(downloads, All, query) == downloads
  {
  }

  /** The counters of the `tabs` array. */
  function TabCount(downloads: seq<Download>, tab: Tab): nat
  {
    match tab
    case All => |downloads|
    case Songs => |Filter(downloads, IsSong)|
    case Recent => |Filter(downloads, WasPlayed)|
    case Popular => |Filter(downloads, PlayedAtLeastOnce)|
  }

  /** Each counter is the length of the list its tab shows with a blank query. */
  lemma TabCountsAgree(downloads: seq<Download>, tab: Tab)
    ensures TabCount(downloads, tab) == |FilterDownloads(downloads, tab, "")|
  {
    assert Trim("") == "";
  }

  /** The page's state: its copy of the download list and the storage figures it shows. */
  class DownloadsPage {
    var downloads: seq<Download>
    var storageInfo: Option<StorageInfo>

    constructor ()
      ensures downloads == [] && storageInfo.None?
    {
      downloads := [];
      storageInfo := None;
    }

    /**
     * `handleRemoveDownloadLocal`: the app's handler asks the store to remove
     * the record and never fails (it only reports a store failure), so the
     * page then drops every record with the id and shows the store's fresh
     * storage figures whether or not the store removed it.
     */
    method HandleRemoveDownloadLocal(app: App.AppController, store: DownloadStore, download: Download)
      requires store.Valid()
      modifies this, app, store
      ensures store.Valid()
      ensures downloads == RemoveId(old(downloads), download.id, DownloadId)
      ensures storageInfo == Some(GetStorageInfo(store.records, store.storageUsed))
      ensures !HasId(old(store.records), download.id, DownloadId) ==>
        store.records == old(store.records) && store.storageUsed == old(store.storageUsed) &&
        app.downloadedIds == old(app.downloadedIds)
      ensures var i := IndexOfId(old(store.records), download.id, DownloadId);
        i != -1 ==> (store.records == RemoveAt(old(store.records), i) &&
                     store.storageUsed == old(store.storageUsed) - old(store.records)[i].fileSize &&
                     app.downloadedIds == App.Without(old(app.downloadedIds), download.id))
      ensures app.favoriteIds == old(app.favoriteIds) && app.queue == old(app.queue)
      ensures app.State() == old(app.State())
    {
      var r := store.RemoveDownload(download.id);
      app.HandleRemoveDownload(download.id, r.Ok?);
      downloads := RemoveId(downloads, download.id, DownloadId);
      storageInfo := Some(GetStorageInfo(store.records, store.storageUsed));
    }

    /**
     * `handlePlayDownload`: the store's record is updated in place, and the
     * page's list shares that record, so the page's record with the id and
     * the record handed to the player both carry the new count. When the
     * store has no such record the page's record is played as it is.
     */
    method HandlePlayDownload(store: DownloadStore, download: Download, now: int)
      returns (played: seq<Download>)
      requires store.Valid()
      modifies this, store
      ensures store.Valid()
      ensures store.storageUsed == old(store.storageUsed) && storageInfo == old(storageInfo)
      ensures |played| == 1
      ensures var i := IndexOfId(old(store.records), download.id, DownloadId);
        i == -1 ==> (played == [download] && store.records == old(store.records) && downloads == old(downloads))
      ensures var i := IndexOfId(old(store.records), download.id, DownloadId);
        i != -1 ==> (played == [old(store.records)[i].(playCount := old(store.records)[i].playCount + 1,
                                                        lastPlayed := Some(now))] &&
                     store.records == old(store.records)[i := played[0]])
      ensures var i := IndexOfId(old(store.records), download.id, DownloadId);
        var j := IndexOfId(old(downloads), download.id, DownloadId);
        i != -1 && j != -1 ==> downloads == old(downloads)[j := played[0]]
      ensures var i := IndexOfId(old(store.records), download.id, DownloadId);
        var j := IndexOfId(old(downloads), download.id, DownloadId);
        i != -1 && j == -1 ==> downloads == old(downloads)
    {
      var r := store.UpdatePlayCount(download.id, now);
      if r.Ok? {
        played := [r.value];
        var j := IndexOfId(downloads, download.id, DownloadId);
        if j != -1 {
          downloads := downloads[j := r.value];
        }
      } else {
        played := [download];
      }
    }
  }
}
