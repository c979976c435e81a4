/**
 * The catalogue entities the mock services keep (songs, albums, playlists,
 * genres), the partial records `update` spreads over them, and their ids.
 * Only the fields the application reads are modelled.
 */
module Catalog {
  import opened Wrappers

  datatype Song = Song(
    id: int, title: string, artist: string, album: string, duration: nat,
    coverUrl: string, genre: string, audioUrl: string)

  /** `songs` is absent in some album records, hence the option. */
  datatype Album = Album(
    id: int, name: string, artist: string, coverUrl: string, releaseYear: int,
    songs: Option<seq<Song>>)

  /** `createdAt` is an ISO timestamp, modelled as an integer clock reading. */
  datatype Playlist = Playlist(
    id: int, name: string, description: string, coverUrl: string, isPublic: bool,
    songs: seq<Song>, createdAt: Option<int>)

  datatype Genre = Genre(id: int, name: string, trackCount: nat)

  function SongId(s: Song): int { s.id }
  function AlbumId(a: Album): int { a.id }
  function PlaylistId(p: Playlist): int { p.id }
  function GenreId(g: Genre): int { g.id }

  /** A field of `{ ...record, ...patch }`: the patch's value when it has one. */
  function Pick<V>(patch: Option<V>, current: V): V
  {
    if patch.Some? then patch.value else current
  }

  /** The fields an `update` call may carry; an absent field keeps the stored value. */
  datatype SongPatch = SongPatch(
    id: Option<int>, title: Option<string>, artist: Option<string>, album: Option<string>,
    duration: Option<nat>, coverUrl: Option<string>, genre: Option<string>,
    audioUrl: Option<string>)

  datatype AlbumPatch = AlbumPatch(
    id: Option<int>, name: Option<string>, artist: Option<string>, coverUrl: Option<string>,
    releaseYear: Option<int>, songs: Option<Option<seq<Song>>>)

  datatype PlaylistPatch = PlaylistPatch(
    id: Option<int>, name: Option<string>, description: Option<string>,
    coverUrl: Option<string>, isPublic: Option<bool>, songs: Option<seq<Song>>,
    createdAt: Option<Option<int>>)

  datatype GenrePatch = GenrePatch(id: Option<int>, name: Option<string>, trackCount: Option<nat>)

  /** `{ ...song, ...patch }`. */
  function MergeSong(s: Song, p: SongPatch): (r: Song)
    ensures (p.id.Some? ==> r.id == p.id.value) && (p.id.None? ==> r.id == s.id)
    ensures (p.title.Some? ==> r.title == p.title.value) && (p.title.None? ==> r.title == s.title)
    ensures (p.artist.Some? ==> r.artist == p.artist.value) && (p.artist.None? ==> r.artist == s.artist)
    ensures (p.album.Some? ==> r.album == p.album.value) && (p.album.None? ==> r.album == s.album)
    ensures (p.duration.Some? ==> r.duration == p.duration.value) && (p.duration.None? ==> r.duration == s.duration)
    ensures (p.coverUrl.Some? ==> r.coverUrl == p.coverUrl.value) && (p.coverUrl.None? ==> r.coverUrl == s.coverUrl)
    ensures (p.genre.Some? ==> r.genre == p.genre.value) && (p.genre.None? ==> r.genre == s.genre)
    ensures (p.audioUrl.Some? ==> r.audioUrl == p.audioUrl.value) && (p.audioUrl.None? ==> r.audioUrl == s.audioUrl)
    ensures p == SongPatch(None, None, None, None, None, None, None, None) ==> r == s
  {
    Song(Pick(p.id, s.id), Pick(p.title, s.title), Pick(p.artist, s.artist),
      Pick(p.album, s.album), Pick(p.duration, s.duration), Pick(p.coverUrl, s.coverUrl),
      Pick(p.genre, s.genre), Pick(p.audioUrl, s.audioUrl))
  }

  /** `{ ...album, ...patch }`. */
  function MergeAlbum(a: Album, p: AlbumPatch): (r: Album)
    ensures (p.id.Some? ==> r.id == p.id.value) && (p.id.None? ==> r.id == a.id)
    ensures (p.name.Some? ==> r.name == p.name.value) && (p.name.None? ==> r.name == a.name)
    ensures (p.artist.Some? ==> r.artist == p.artist.value) && (p.artist.None? ==> r.artist == a.artist)
    ensures (p.coverUrl.Some? ==> r.coverUrl == p.coverUrl.value) && (p.coverUrl.None? ==> r.coverUrl == a.coverUrl)
    ensures (p.releaseYear.Some? ==> r.releaseYear == p.releaseYear.value) && (p.releaseYear.None? ==> r.releaseYear == a.releaseYear)
    ensures (p.songs.Some? ==> r.songs == p.songs.value) && (p.songs.None? ==> r.songs == a.songs)
    ensures p == AlbumPatch(None, None, None, None, None, None) ==> r == a
  {
    Album(Pick(p.id, a.id), Pick(p.name, a.name), Pick(p.artist, a.artist),
      Pick(p.coverUrl, a.coverUrl), Pick(p.releaseYear, a.releaseYear), Pick(p.songs, a.songs))
  }

  /** `{ ...playlist, ...patch }`. */
  function MergePlaylist(pl: Playlist, p: PlaylistPatch): (r: Playlist)
    ensures (p.id.Some? ==> r.id == p.id.value) && (p.id.None? ==> r.id == pl.id)
    ensures (p.name.Some? ==> r.name == p.name.value) && (p.name.None? ==> r.name == pl.name)
    ensures (p.description.Some? ==> r.description == p.description.value) && (p.description.None? ==> r.description == pl.description)
    ensures (p.coverUrl.Some? ==> r.coverUrl == p.coverUrl.value) && (p.coverUrl.None? ==> r.coverUrl == pl.coverUrl)
    ensures (p.isPublic.Some? ==> r.isPublic == p.isPublic.value) && (p.isPublic.None? ==> r.isPublic == pl.isPublic)
    ensures (p.songs.Some? ==> r.songs == p.songs.value) && (p.songs.None? ==> r.songs == pl.songs)
    ensures (p.createdAt.Some? ==> r.createdAt == p.createdAt.value) && (p.createdAt.None? ==> r.createdAt == pl.createdAt)
    ensures p == PlaylistPatch(None, None, None, None, None, None, None) ==> r == pl
  {
    Playlist(Pick(p.id, pl.id), Pick(p.name, pl.name), Pick(p.description, pl.description),
      Pick(p.coverUrl, pl.coverUrl), Pick(p.isPublic, pl.isPublic), Pick(p.songs, pl.songs),
      Pick(p.createdAt, pl.createdAt))
  }

  /** `{ ...genre, ...patch }`. */
  function MergeGenre(g: Genre, p: GenrePatch): (r: Genre)
    ensures (p.id.Some? ==> r.id == p.id.value) && (p.id.None? ==> r.id == g.id)
    ensures (p.name.Some? ==> r.name == p.name.value) && (p.name.None? ==> r.name == g.name)
    ensures (p.trackCount.Some? ==> r.trackCount == p.trackCount.value) && (p.trackCount.None? ==> r.trackCount == g.trackCount)
    ensures p == GenrePatch(None, None, None) ==> r == g
  {
    Genre(Pick(p.id, g.id), Pick(p.name, g.name), Pick(p.trackCount, g.trackCount))
  }

  /** Applying the same patch twice is applying it once. */
  lemma MergeIdempotent(s: Song, a: Album, pl: Playlist, g: Genre,
                        ps: SongPatch, pa: AlbumPatch, pp: PlaylistPatch, pg: GenrePatch)
    ensures MergeSong(MergeSong(s, ps), ps) == MergeSong(s, ps)
    ensures MergeAlbum(MergeAlbum(a, pa), pa) == MergeAlbum(a, pa)
    ensures MergePlaylist(MergePlaylist(pl, pp), pp) == MergePlaylist(pl, pp)
    ensures MergeGenre(MergeGenre(g, pg), pg) == MergeGenre(g, pg)
  {
  }
}
