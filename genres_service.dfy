/**
 * The genres service: a module-level list of genres with lookup and search,
 * and create/update/delete on the list in place.
 */
module GenresService {
  import opened Wrappers
  import opened Seqs
  import opened Text
  import opened Catalog

  /** The test `search` applies: the lower-cased query occurs in the name. */
  predicate MatchesQuery(g: Genre, query: string)
  {
    Contains(Lower(g.name), Lower(query))
  }

  /** `getById`: the first genre with the id, or the error "Genre not found". */
  function GetById(genres: seq<Genre>, id: int): (r: Result<Genre>)
    ensures r.Ok? <==> HasId(genres, id, GenreId)
    ensures r.Ok? ==> r.value.id == id && r.value in genres
    ensures r.Err? ==> r.message == "Genre not found"
  {
    var i := IndexOfId(genres, id, GenreId);
    if i == -1 then Err("Genre not found") else Ok(genres[i])
  }

  /** `search`: in store order, every copy of every genre whose name matches the query. */
  function Search(genres: seq<Genre>, query: string): (r: seq<Genre>)
    ensures Subseq(r, genres)
    ensures forall g :: multiset(r)[g] == if MatchesQuery(g, query) then multiset(genres)[g] else 0
  {
    FilterCounts(genres, g => MatchesQuery(g, query));
    Filter(genres, g => MatchesQuery(g, query))
  }

  /** The module-level `genresData` list and the operations that change it. */
  class GenreStore {
    var genres: seq<Genre>

    /** The list as the loader leaves it (the loader itself is not part of this model). */
    constructor (initial: seq<Genre>)
      ensures genres == initial
    {
      genres := initial;
    }

    /** `create`: the new genre takes the next id and goes to the end of the list. */
    method Create(data: Genre) returns (created: Genre)
      modifies this
      ensures created == data.(id := NextId(old(genres), GenreId))
      ensures genres == old(genres) + [created]
      ensures forall i :: 0 <= i < |old(genres)| ==> old(genres)[i].id < created.id
      ensures UniqueIds(old(genres), GenreId) ==> UniqueIds(genres, GenreId)
    {
      created := data.(id := NextId(genres, GenreId));
      genres := genres + [created];
    }

    /** `update`: merges the patch into the first genre with the id; nothing else changes. */
    method Update(id: int, patch: GenrePatch) returns (r: Result<Genre>)
      modifies this
      ensures var i := IndexOfId(old(genres), id, GenreId);
        if i == -1 then r == Err("Genre not found") && genres == old(genres)
        else r == Ok(MergeGenre(old(genres)[i], patch)) && genres == old(genres)[i := r.value]
      ensures patch.id.None? && UniqueIds(old(genres), GenreId) ==> UniqueIds(genres, GenreId)
    {
      var i := IndexOfId(genres, id, GenreId);
      if i == -1 {
        return Err("Genre not found");
      }
      genres := genres[i := MergeGenre(genres[i], patch)];
      r := Ok(genres[i]);
    }

    /** `delete`: splices out the first genre with the id and returns it. */
    method Delete(id: int) returns (r: Result<Genre>)
      modifies this
      ensures var i := IndexOfId(old(genres), id, GenreId);
        if i == -1 then r == Err("Genre not found") && genres == old(genres)
        else r == Ok(old(genres)[i]) && genres == RemoveAt(old(genres), i)
      ensures UniqueIds(old(genres), GenreId) ==> UniqueIds(genres, GenreId)
    {
      var i := IndexOfId(genres, id, GenreId);
      if i == -1 {
        return Err("Genre not found");
      }
      r := Ok(genres[i]);
      ghost var before := genres;
      genres := RemoveAt(genres, i);
      assert UniqueIds(before, GenreId) ==> UniqueIds(genres, GenreId) by {
        if UniqueIds(before, GenreId) {
          RemoveAtKeepsUnique(before, i, GenreId);
        }
      }
    }
  }
}
