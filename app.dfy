/**
 * The root controller: the song being played, whether it plays, and the ids
 * of the favourite and downloaded songs that the pages mark. Each handler
 * awaits a store call and changes the id lists only when that call succeeds;
 * the call's outcome is a parameter.
 */
module App {
  import opened Wrappers
  import opened Seqs
  import opened Catalog
  import opened UserLibrary
  import opened DownloadService

  /** `ids.filter(x => x !== id)`: every occurrence of `id` dropped, the rest kept in order. */
  function Without(ids: seq<int>, id: int): (r: seq<int>)
    ensures id !in r
    ensures Subseq(r, ids)
    ensures forall x :: x != id ==> multiset(r)[x] == multiset(ids)[x]
  {
    FilterCounts(ids, x => x != id);
    Filter(ids, x => x != id)
  }

  /** The favourites after a successful toggle of `id`: every copy dropped if present, else appended. */
  function Toggled(ids: seq<int>, id: int): (r: seq<int>)
    ensures id in r <==> id !in ids
    ensures forall x :: x != id ==> multiset(r)[x] == multiset(ids)[x]
  {
    if id in ids then Without(ids, id) else ids + [id]
  }

  /** Two successful toggles of the same song restore which songs are favourites. */
  lemma ToggleTwiceRestoresMembership(ids: seq<int>, id: int)
    ensures forall x :: x in Toggled(Toggled(ids, id), id) <==> x in ids
  {
    forall x | x != id
      ensures x in Toggled(Toggled(ids, id), id) <==> x in ids
    {
      assert multiset(Toggled(Toggled(ids, id), id))[x] == multiset(ids)[x];
    }
  }

  /** Starting from a song that is not a favourite, two toggles restore the exact list. */
  lemma {:induction false} ToggleTwiceFromAbsent(ids: seq<int>, id: int)
    requires id !in ids
    ensures Toggled(Toggled(ids, id), id) == ids
  {
    var p := (x: int) => x != id;
    FilterConcat(ids, [id], p);
    FilterKeepsAll(ids, p);
    assert Filter([id], p) == [] by {
      assert [id][1..] == [];
    }
    assert ids + [id] + [] == ids + [id];
  }

  /** `album.songs?.map(song => song.Id) || []`. */
  function AlbumSongIds(album: Album): seq<int>
  {
    if album.songs.Some? then Ids(album.songs.value, SongId) else []
  }

  /** The playback state `handlePlay` and `handlePause` set. */
  datatype Playback = Playback(currentSong: Option<Song>, isPlaying: bool)

  /** `handlePlay(song)`: the song, whatever it is (even absent), becomes current and plays. */
  function OnPlay(song: Option<Song>): Playback
  {
    Playback(song, true)
  }

  /** `handlePause`: playing stops; the current song stays. */
  function OnPause(p: Playback): Playback
  {
    p.(isPlaying := false)
  }

  /** The state cells of the `App` component. */
  class AppController {
    var currentSong: Option<Song>
    var isPlaying: bool
    /** Passed to the player but never written. */
    var queue: seq<Song>
    var favoriteIds: seq<int>
    var downloadedIds: seq<int>

    constructor ()
      ensures currentSong.None? && !isPlaying && queue == []
      ensures favoriteIds == [] && downloadedIds == []
    {
      currentSong := None;
      isPlaying := false;
      queue := [];
      favoriteIds := [];
      downloadedIds := [];
    }

    function State(): Playback
      reads this
    {
      Playback(currentSong, isPlaying)
    }

    /**
     * `loadUserData`: when both reads succeed, the favourites are the ids of the
     * saved songs and the downloaded ids those of the download records, in order.
     */
    method LoadUserData(library: Library, downloads: seq<Download>, loaded: bool)
      modifies this
      ensures loaded ==> favoriteIds == Ids(library.savedSongs, SongId)
      ensures loaded ==> downloadedIds == Ids(downloads, DownloadId)
      ensures loaded ==> forall id :: id in favoriteIds <==> HasId(library.savedSongs, id, SongId)
      ensures loaded ==> forall id :: id in downloadedIds <==> HasId(downloads, id, DownloadId)
      ensures !loaded ==> favoriteIds == old(favoriteIds) && downloadedIds == old(downloadedIds)
      ensures State() == old(State()) && queue == old(queue)
    {
      if loaded {
        favoriteIds := Ids(library.savedSongs, SongId);
        downloadedIds := Ids(downloads, DownloadId);
        assert forall id :: id in favoriteIds ==> HasId(library.savedSongs, id, SongId);
        assert forall id :: id in downloadedIds ==> HasId(downloads, id, DownloadId);
      }
    }

    /**
     * `handlePlay`: the state is set before the history write is awaited, so it
     * holds whether or not that write succeeds.
     */
    method HandlePlay(song: Option<Song>)
      modifies this
      ensures State() == OnPlay(song)
      ensures queue == old(queue) && favoriteIds == old(favoriteIds) && downloadedIds == old(downloadedIds)
    {
      currentSong := song;
      isPlaying := true;
    }

    /** `handlePause`. */
    method HandlePause()
      modifies this
      ensures State() == OnPause(old(State()))
      ensures queue == old(queue) && favoriteIds == old(favoriteIds) && downloadedIds == old(downloadedIds)
    {
      isPlaying := false;
    }

    /** `handleNext`: there is no queue navigation; it only pauses. */
    method HandleNext()
      modifies this
      ensures State() == OnPause(old(State()))
      ensures queue == old(queue) && favoriteIds == old(favoriteIds) && downloadedIds == old(downloadedIds)
    {
      isPlaying := false;
    }

    /** `handlePrevious`: like `handleNext`, it only pauses. */
    method HandlePrevious()
      modifies this
      ensures State() == OnPause(old(State()))
      ensures queue == old(queue) && favoriteIds == old(favoriteIds) && downloadedIds == old(downloadedIds)
    {
      isPlaying := false;
    }

    /** `handleToggleFavorite`: the favourites change only when the library call succeeds. */
    method HandleToggleFavorite(song: Song, storeOk: bool)
      modifies this
      ensures favoriteIds == if storeOk then Toggled(old(favoriteIds), song.id) else old(favoriteIds)
      ensures State() == old(State()) && queue == old(queue) && downloadedIds == old(downloadedIds)
    {
      var isFavorite := song.id in favoriteIds;
      if !storeOk {
        return;
      }
      if isFavorite {
        favoriteIds := Without(favoriteIds, song.id);
      } else {
        favoriteIds := favoriteIds + [song.id];
      }
    }

    /** `handleDownloadSong`: the id is appended only when the download succeeds. */
    method HandleDownloadSong(song: Song, storeOk: bool)
      modifies this
      ensures downloadedIds == if storeOk then old(downloadedIds) + [song.id] else old(downloadedIds)
      ensures State() == old(State()) && queue == old(queue) && favoriteIds == old(favoriteIds)
    {
      if storeOk {
        downloadedIds := downloadedIds + [song.id];
      }
    }

    /**
     * `handleDownloadAlbum`: on success every id of the album is appended,
     * including those of songs that were already downloaded.
     */
    method HandleDownloadAlbum(album: Album, storeOk: bool)
      modifies this
      ensures downloadedIds == if storeOk then old(downloadedIds) + AlbumSongIds(album) else old(downloadedIds)
      ensures storeOk ==> forall id :: id in AlbumSongIds(album) ==>
        multiset(downloadedIds)[id] == multiset(old(downloadedIds))[id] + multiset(AlbumSongIds(album))[id]
      ensures State() == old(State()) && queue == old(queue) && favoriteIds == old(favoriteIds)
    {
      if storeOk {
        downloadedIds := downloadedIds + AlbumSongIds(album);
      }
    }

    /** `handleRemoveDownload`: on success every occurrence of the id is dropped. */
    method HandleRemoveDownload(itemId: int, storeOk: bool)
      modifies this
      ensures downloadedIds == if storeOk then Without(old(downloadedIds), itemId) else old(downloadedIds)
      ensures State() == old(State()) && queue == old(queue) && favoriteIds == old(favoriteIds)
    {
      if storeOk {
        downloadedIds := Without(downloadedIds, itemId);
      }
    }
  }
}
