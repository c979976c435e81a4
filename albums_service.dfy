/**
 * The albums service: a module-level list of albums with lookup, search and
 * artist queries, and create/update/delete on the list in place.
 */
module AlbumsService {
  import opened Wrappers
  import opened Seqs
  import opened Text
  import opened Catalog

  /** The test `search` applies: the lower-cased query occurs in the name or the artist. */
  predicate MatchesQuery(a: Album, query: string)
  {
    var q := Lower(query);
    Contains(Lower(a.name), q) || Contains(Lower(a.artist), q)
  }

  /** `getById`: the first album with the id, or the error "Album not found". */
  function GetById(albums: seq<Album>, id: int): (r: Result<Album>)
    ensures r.Ok? <==> HasId(albums, id, AlbumId)
    ensures r.Ok? ==> r.value.id == id && r.value in albums
    ensures r.Err? ==> r.message == "Album not found"
  {
    var i := IndexOfId(albums, id, AlbumId);
    if i == -1 then Err("Album not found") else Ok(albums[i])
  }

  /** `search`: in store order, every copy of every album that matches the query. */
  function Search(albums: seq<Album>, query: string): (r: seq<Album>)
    ensures Subseq(r, albums)
    ensures forall a :: multiset(r)[a] == if MatchesQuery(a, query) then multiset(albums)[a] else 0
  {
    FilterCounts(albums, a => MatchesQuery(a, query));
    Filter(albums, a => MatchesQuery(a, query))
  }

  /** The test `getByArtist` applies: the artists are equal once lower-cased. */
  predicate ByArtist(a: Album, artist: string)
  {
    Lower(a.artist) == Lower(artist)
  }

  /** `getByArtist`: the albums whose artist equals the argument, ignoring case. */
  function GetByArtist(albums: seq<Album>, artist: string): (r: seq<Album>)
    ensures Subseq(r, albums)
    ensures forall a :: multiset(r)[a] == if ByArtist(a, artist) then multiset(albums)[a] else 0
  {
    FilterCounts(albums, a => ByArtist(a, artist));
    Filter(albums, a => ByArtist(a, artist))
  }

  /** The module-level `albumsData` list and the operations that change it. */
  class AlbumStore {
    var albums: seq<Album>

    /** The list as the loader leaves it (the loader itself is not part of this model). */
    constructor (initial: seq<Album>)
      ensures albums == initial
    {
      albums := initial;
    }

    /** `create`: the new album takes the next id and goes to the end of the list. */
    method Create(data: Album) returns (created: Album)
      modifies this
      ensures created == data.(id := NextId(old(albums), AlbumId))
      ensures albums == old(albums) + [created]
      ensures forall i :: 0 <= i < |old(albums)| ==> old(albums)[i].id < created.id
      ensures UniqueIds(old(albums), AlbumId) ==> UniqueIds(albums, AlbumId)
    {
      created := data.(id := NextId(albums, AlbumId));
      albums := albums + [created];
    }

    /** `update`: merges the patch into the first album with the id; nothing else changes. */
    method Update(id: int, patch: AlbumPatch) returns (r: Result<Album>)
      modifies this
      ensures var i := IndexOfId(old(albums), id, AlbumId);
        if i == -1 then r == Err("Album not found") && albums == old(albums)
        else r == Ok(MergeAlbum(old(albums)[i], patch)) && albums == old(albums)[i := r.value]
      ensures patch.id.None? && UniqueIds(old(albums), AlbumId) ==> UniqueIds(albums, AlbumId)
    {
      var i := IndexOfId(albums, id, AlbumId);
      if i == -1 {
        return Err("Album not found");
      }
      albums := albums[i := MergeAlbum(albums[i], patch)];
      r := Ok(albums[i]);
    }

    /** `delete`: splices out the first album with the id and returns it. */
    method Delete(id: int) returns (r: Result<Album>)
      modifies this
      ensures var i := IndexOfId(old(albums), id, AlbumId);
        if i == -1 then r == Err("Album not found") && albums == old(albums)
        else r == Ok(old(albums)[i]) && albums == RemoveAt(old(albums), i)
      ensures UniqueIds(old(albums), AlbumId) ==> UniqueIds(albums, AlbumId)
    {
      var i := IndexOfId(albums, id, AlbumId);
      if i == -1 {
        return Err("Album not found");
      }
      r := Ok(albums[i]);
      ghost var before := albums;
      albums := RemoveAt(albums, i);
      assert UniqueIds(before, AlbumId) ==> UniqueIds(albums, AlbumId) by {
        if UniqueIds(before, AlbumId) {
          RemoveAtKeepsUnique(before, i, AlbumId);
        }
      }
    }
  }
}
