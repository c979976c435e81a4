/**
 * The user library service: saved songs, saved albums and the
 * recently-played history, kept in one module-level record that the
 * mutators change in place.
 */
module UserLibrary {
  import opened Wrappers
  import opened Seqs
  import opened Catalog

  /** How many songs the recently-played history keeps. */
  const RecentLimit: nat := 10

  /** The copy `{ ...userLibraryData }` that every call returns; `playlists` may be missing. */
  datatype Library = Library(
    savedSongs: seq<Song>, savedAlbums: seq<Album>, recentlyPlayed: seq<Song>,
    playlists: Option<seq<Playlist>>)

  /**
   * The history after playing `song`: the song first, no other entry with
   * its id, the remaining entries in their previous order, at most ten in all.
   */
  function PushRecent(recent: seq<Song>, song: Song): (r: seq<Song>)
    ensures 1 <= |r| <= RecentLimit
    ensures r[0] == song
    ensures forall i :: 1 <= i < |r| ==> r[i].id != song.id
    ensures r[1..] <= RemoveId(recent, song.id, SongId)
    ensures |r| == if |RemoveId(recent, song.id, SongId)| < RecentLimit
                   then |RemoveId(recent, song.id, SongId)| + 1 else RecentLimit
  {
    var others := RemoveId(recent, song.id, SongId);
    var r := Take([song] + others, RecentLimit);
    assert r[0] == song;
    assert forall i :: 1 <= i < |r| ==> r[i] == others[i - 1];
    assert r[1..] == others[..|r| - 1];
    r
  }

  /** The entries after the first are older entries, still in the order they had. */
  lemma PushRecentKeepsOrder(recent: seq<Song>, song: Song)
    ensures Subseq(PushRecent(recent, song)[1..], recent)
  {
    var r := PushRecent(recent, song);
    SubseqOfPrefix(r[1..], RemoveId(recent, song.id, SongId), recent);
  }

  /** The module-level `userLibraryData` record. */
  class LibraryStore {
    var savedSongs: seq<Song>
    var savedAlbums: seq<Album>
    var recentlyPlayed: seq<Song>
    var playlists: Option<seq<Playlist>>

    /** The record as the JSON data provides it. */
    constructor (initial: Library)
      ensures Snapshot() == initial
    {
      savedSongs := initial.savedSongs;
      savedAlbums := initial.savedAlbums;
      recentlyPlayed := initial.recentlyPlayed;
      playlists := initial.playlists;
    }

    function Snapshot(): Library
      reads this
    {
      Library(savedSongs, savedAlbums, recentlyPlayed, playlists)
    }

    /** `getLibrary`. */
    method GetLibrary() returns (lib: Library)
      ensures lib == Snapshot()
    {
      lib := Library(savedSongs, savedAlbums, recentlyPlayed, playlists);
    }

    /** `getSavedSongs`, `getSavedAlbums` and `getRecentlyPlayed`: copies of the lists. */
    method GetLists() returns (songs: seq<Song>, albums: seq<Album>, recent: seq<Song>)
      ensures songs == savedSongs && albums == savedAlbums && recent == recentlyPlayed
    {
      songs, albums, recent := savedSongs, savedAlbums, recentlyPlayed;
    }

    /** `addSongToLibrary`: appends the song unless a saved song has its id. */
    method AddSongToLibrary(song: Song) returns (lib: Library)
      modifies this
      ensures savedSongs == AppendIfNewId(old(savedSongs), song, SongId)
      ensures savedAlbums == old(savedAlbums) && recentlyPlayed == old(recentlyPlayed)
      ensures playlists == old(playlists)
      ensures lib == Snapshot()
    {
      if !HasId(savedSongs, song.id, SongId) {
        savedSongs := savedSongs + [song];
      }
      lib := Library(savedSongs, savedAlbums, recentlyPlayed, playlists);
    }

    /** `removeSongFromLibrary`: drops every saved song with the id. */
    method RemoveSongFromLibrary(songId: int) returns (lib: Library)
      modifies this
      ensures savedSongs == RemoveId(old(savedSongs), songId, SongId)
      ensures savedAlbums == old(savedAlbums) && recentlyPlayed == old(recentlyPlayed)
      ensures playlists == old(playlists)
      ensures lib == Snapshot()
    {
      savedSongs := RemoveId(savedSongs, songId, SongId);
      lib := Library(savedSongs, savedAlbums, recentlyPlayed, playlists);
    }

    /** `addAlbumToLibrary`: appends the album unless a saved album has its id. */
    method AddAlbumToLibrary(album: Album) returns (lib: Library)
      modifies this
      ensures savedAlbums == AppendIfNewId(old(savedAlbums), album, AlbumId)
      ensures savedSongs == old(savedSongs) && recentlyPlayed == old(recentlyPlayed)
      ensures playlists == old(playlists)
      ensures lib == Snapshot()
    {
      if !HasId(savedAlbums, album.id, AlbumId) {
        savedAlbums := savedAlbums + [album];
      }
      lib := Library(savedSongs, savedAlbums, recentlyPlayed, playlists);
    }

    /** `removeAlbumFromLibrary`: drops every saved album with the id. */
    method RemoveAlbumFromLibrary(albumId: int) returns (lib: Library)
      modifies this
      ensures savedAlbums == RemoveId(old(savedAlbums), albumId, AlbumId)
      ensures savedSongs == old(savedSongs) && recentlyPlayed == old(recentlyPlayed)
      ensures playlists == old(playlists)
      ensures lib == Snapshot()
    {
      savedAlbums := RemoveId(savedAlbums, albumId, AlbumId);
      lib := Library(savedSongs, savedAlbums, recentlyPlayed, playlists);
    }

    /** `addToRecentlyPlayed`: filter out the id, put the song first, cut to ten. */
    method AddToRecentlyPlayed(song: Song) returns (lib: Library)
      modifies this
      ensures recentlyPlayed == PushRecent(old(recentlyPlayed), song)
      ensures savedSongs == old(savedSongs) && savedAlbums == old(savedAlbums)
      ensures playlists == old(playlists)
      ensures lib == Snapshot()
    {
      recentlyPlayed := RemoveId(recentlyPlayed, song.id, SongId);
      recentlyPlayed := [song] + recentlyPlayed;
      if |recentlyPlayed| > RecentLimit {
        recentlyPlayed := recentlyPlayed[..RecentLimit];
      }
      lib := Library(savedSongs, savedAlbums, recentlyPlayed, playlists);
    }
  }
}
