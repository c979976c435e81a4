/**
 * The songs service: a module-level list of songs with lookup, search and
 * genre queries, and create/update/delete on the list in place.
 */
module SongsService {
  import opened Wrappers
  import opened Seqs
  import opened Text
  import opened Catalog

  /** The test `search` applies: the lower-cased query occurs in the title, artist or album. */
  predicate MatchesQuery(s: Song, query: string)
  {
    var q := Lower(query);
    Contains(Lower(s.title), q) || Contains(Lower(s.artist), q) || Contains(Lower(s.album), q)
  }

  /** `getById`: the first song with the id, or the error "Song not found". */
  function GetById(songs: seq<Song>, id: int): (r: Result<Song>)
    ensures r.Ok? <==> HasId(songs, id, SongId)
    ensures r.Ok? ==> r.value.id == id && r.value in songs
    ensures r.Err? ==> r.message == "Song not found"
  {
    var i := IndexOfId(songs, id, SongId);
    if i == -1 then Err("Song not found") else Ok(songs[i])
  }

  /** `search`: in store order, every copy of every song that matches the query. */
  function Search(songs: seq<Song>, query: string): (r: seq<Song>)
    ensures Subseq(r, songs)
    ensures forall s :: multiset(r)[s] == if MatchesQuery(s, query) then multiset(songs)[s] else 0
  {
    FilterCounts(songs, s => MatchesQuery(s, query));
    Filter(songs, s => MatchesQuery(s, query))
  }

  /** Every song contains the empty string, so the empty query returns the whole list. */
  lemma SearchEmptyQueryReturnsAll(songs: seq<Song>)
    ensures Search(songs, "") == songs
  {
    forall i | 0 <= i < |songs| ensures MatchesQuery(songs[i], "") {
      ContainsEmpty(Lower(songs[i].title));
    }
    FilterKeepsAll(songs, s => MatchesQuery(s, ""));
  }

  /** The test `getByGenre` applies: the genres are equal once lower-cased. */
  predicate InGenre(s: Song, genre: string)
  {
    Lower(s.genre) == Lower(genre)
  }

  /** `getByGenre`: the songs whose genre equals the argument, ignoring case. */
  function GetByGenre(songs: seq<Song>, genre: string): (r: seq<Song>)
    ensures Subseq(r, songs)
    ensures forall s :: multiset(r)[s] == if InGenre(s, genre) then multiset(songs)[s] else 0
  {
    FilterCounts(songs, s => InGenre(s, genre));
    Filter(songs, s => InGenre(s, genre))
  }

  /** The module-level `songsData` list and the operations that change it. */
  class SongStore {
    var songs: seq<Song>

    /** The list as the loader leaves it (the loader itself is not part of this model). */
    constructor (initial: seq<Song>)
      ensures songs == initial
    {
      songs := initial;
    }

    /** `create`: the new song takes the next id and goes to the end of the list. */
    method Create(data: Song) returns (created: Song)
      modifies this
      ensures created == data.(id := NextId(old(songs), SongId))
      ensures songs == old(songs) + [created]
      ensures forall i :: 0 <= i < |old(songs)| ==> old(songs)[i].id < created.id
      ensures UniqueIds(old(songs), SongId) ==> UniqueIds(songs, SongId)
    {
      created := data.(id := NextId(songs, SongId));
      songs := songs + [created];
    }

    /** `update`: merges the patch into the first song with the id; nothing else changes. */
    method Update(id: int, patch: SongPatch) returns (r: Result<Song>)
      modifies this
      ensures var i := IndexOfId(old(songs), id, SongId);
        if i == -1 then r == Err("Song not found") && songs == old(songs)
        else r == Ok(MergeSong(old(songs)[i], patch)) && songs == old(songs)[i := r.value]
      ensures patch.id.None? && UniqueIds(old(songs), SongId) ==> UniqueIds(songs, SongId)
    {
      var i := IndexOfId(songs, id, SongId);
      if i == -1 {
        return Err("Song not found");
      }
      songs := songs[i := MergeSong(songs[i], patch)];
      r := Ok(songs[i]);
    }

    /** `delete`: splices out the first song with the id and returns it. */
    method Delete(id: int) returns (r: Result<Song>)
      modifies this
      ensures var i := IndexOfId(old(songs), id, SongId);
        if i == -1 then r == Err("Song not found") && songs == old(songs)
        else r == Ok(old(songs)[i]) && songs == RemoveAt(old(songs), i)
      ensures UniqueIds(old(songs), SongId) ==> UniqueIds(songs, SongId)
    {
      var i := IndexOfId(songs, id, SongId);
      if i == -1 {
        return Err("Song not found");
      }
      r := Ok(songs[i]);
      ghost var before := songs;
      songs := RemoveAt(songs, i);
      assert UniqueIds(before, SongId) ==> UniqueIds(songs, SongId) by {
        if UniqueIds(before, SongId) {
          RemoveAtKeepsUnique(before, i, SongId);
        }
      }
    }
  }
}
