/**
 * The playlists service: a module-level list of playlists with lookup,
 * search and the public filter, create/update/delete on the list, and
 * adding or removing songs inside one playlist in place.
 */
module PlaylistsService {
  import opened Wrappers
  import opened Seqs
  import opened Text
  import opened Catalog

  /** The test `search` applies: the lower-cased query occurs in the name or the description. */
  predicate MatchesQuery(p: Playlist, query: string)
  {
    var q := Lower(query);
    Contains(Lower(p.name), q) || Contains(Lower(p.description), q)
  }

  /** `getById`: the first playlist with the id, or the error "Playlist not found". */
  function GetById(playlists: seq<Playlist>, id: int): (r: Result<Playlist>)
    ensures r.Ok? <==> HasId(playlists, id, PlaylistId)
    ensures r.Ok? ==> r.value.id == id && r.value in playlists
    ensures r.Err? ==> r.message == "Playlist not found"
  {
    var i := IndexOfId(playlists, id, PlaylistId);
    if i == -1 then Err("Playlist not found") else Ok(playlists[i])
  }

  /** `search`: in store order, every copy of every playlist that matches the query. */
  function Search(playlists: seq<Playlist>, query: string): (r: seq<Playlist>)
    ensures Subseq(r, playlists)
    ensures forall p :: multiset(r)[p] == if MatchesQuery(p, query) then multiset(playlists)[p] else 0
  {
    FilterCounts(playlists, p => MatchesQuery(p, query));
    Filter(playlists, p => MatchesQuery(p, query))
  }

  function IsPublic(p: Playlist): bool { p.isPublic }

  /** `getPublicPlaylists`: in store order, exactly the public playlists. */
  function GetPublicPlaylists(playlists: seq<Playlist>): (r: seq<Playlist>)
    ensures Subseq(r, playlists)
    ensures forall p :: multiset(r)[p] == if p.isPublic then multiset(playlists)[p] else 0
  {
    FilterCounts(playlists, IsPublic);
    Filter(playlists, IsPublic)
  }

  /** The module-level `playlistsData` list and the operations that change it. */
  class PlaylistStore {
    var playlists: seq<Playlist>

    /** The list as the JSON data provides it. */
    constructor (initial: seq<Playlist>)
      ensures playlists == initial
    {
      playlists := initial;
    }

    /** `create`: the new playlist takes the next id and the creation time, and goes last. */
    method Create(data: Playlist, now: int) returns (created: Playlist)
      modifies this
      ensures created == data.(id := NextId(old(playlists), PlaylistId), createdAt := Some(now))
      ensures playlists == old(playlists) + [created]
      ensures forall i :: 0 <= i < |old(playlists)| ==> old(playlists)[i].id < created.id
      ensures UniqueIds(old(playlists), PlaylistId) ==> UniqueIds(playlists, PlaylistId)
    {
      created := data.(id := NextId(playlists, PlaylistId), createdAt := Some(now));
      playlists := playlists + [created];
    }

    /** `update`: merges the patch into the first playlist with the id; nothing else changes. */
    method Update(id: int, patch: PlaylistPatch) returns (r: Result<Playlist>)
      modifies this
      ensures var i := IndexOfId(old(playlists), id, PlaylistId);
        if i == -1 then r == Err("Playlist not found") && playlists == old(playlists)
        else r == Ok(MergePlaylist(old(playlists)[i], patch)) && playlists == old(playlists)[i := r.value]
      ensures patch.id.None? && UniqueIds(old(playlists), PlaylistId) ==> UniqueIds(playlists, PlaylistId)
    {
      var i := IndexOfId(playlists, id, PlaylistId);
      if i == -1 {
        return Err("Playlist not found");
      }
      playlists := playlists[i := MergePlaylist(playlists[i], patch)];
      r := Ok(playlists[i]);
    }

    /** `delete`: splices out the first playlist with the id and returns it. */
    method Delete(id: int) returns (r: Result<Playlist>)
      modifies this
      ensures var i := IndexOfId(old(playlists), id, PlaylistId);
        if i == -1 then r == Err("Playlist not found") && playlists == old(playlists)
        else r == Ok(old(playlists)[i]) && playlists == RemoveAt(old(playlists), i)
      ensures UniqueIds(old(playlists), PlaylistId) ==> UniqueIds(playlists, PlaylistId)
    {
      var i := IndexOfId(playlists, id, PlaylistId);
      if i == -1 {
        return Err("Playlist not found");
      }
      r := Ok(playlists[i]);
      ghost var before := playlists;
      playlists := RemoveAt(playlists, i);
      assert UniqueIds(before, PlaylistId) ==> UniqueIds(playlists, PlaylistId) by {
        if UniqueIds(before, PlaylistId) {
          RemoveAtKeepsUnique(before, i, PlaylistId);
        }
      }
    }

    /**
     * `addSongToPlaylist`: the first playlist with the id gets the song appended,
     * unless it already holds a song with the same id; no other playlist changes.
     */
    method AddSongToPlaylist(playlistId: int, song: Song) returns (r: Result<Playlist>)
      modifies this
      ensures var i := IndexOfId(old(playlists), playlistId, PlaylistId);
        if i == -1 then r == Err("Playlist not found") && playlists == old(playlists)
        else
          var p := old(playlists)[i];
          r == Ok(p.(songs := AppendIfNewId(p.songs, song, SongId)))
          && playlists == old(playlists)[i := r.value]
    {
      var i := IndexOfId(playlists, playlistId, PlaylistId);
      if i == -1 {
        return Err("Playlist not found");
      }
      var p := playlists[i];
      if !HasId(p.songs, song.id, SongId) {
        p := p.(songs := p.songs + [song]);
      }
      playlists := playlists[i := p];
      r := Ok(p);
    }

    /**
     * `removeSongFromPlaylist`: the first playlist with the id loses every song
     * carrying `songId`, the rest keep their order; no other playlist changes.
     */
    method RemoveSongFromPlaylist(playlistId: int, songId: int) returns (r: Result<Playlist>)
      modifies this
      ensures var i := IndexOfId(old(playlists), playlistId, PlaylistId);
        if i == -1 then r == Err("Playlist not found") && playlists == old(playlists)
        else
          var p := old(playlists)[i];
          r == Ok(p.(songs := RemoveId(p.songs, songId, SongId)))
          && playlists == old(playlists)[i := r.value]
    {
      var i := IndexOfId(playlists, playlistId, PlaylistId);
      if i == -1 {
        return Err("Playlist not found");
      }
      var p := playlists[i];
      p := p.(songs := RemoveId(p.songs, songId, SongId));
      playlists := playlists[i := p];
      r := Ok(p);
    }
  }
}
