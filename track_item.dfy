/**
 * One row of a track list: the track's duration as `m:ss`, its play/pause
 * button, and the artist line under the title.
 */
module TrackItem {
  import opened Wrappers
  import opened Text
  import opened Catalog

  /**
   * `formatDuration`: whole minutes, then the remaining seconds padded to two
   * digits. It reads back as the duration; under ten minutes it is four characters.
   */
  function FormatDuration(seconds: nat): (r: string)
    ensures ParseClock(r) == Some(seconds)
    ensures seconds < 600 ==> |r| == 4
  {
    ClockRoundTrip(seconds / 60, seconds % 60);
    Clock(seconds / 60, seconds % 60)
  }

  /** The handler call the row's play/pause button makes. */
  datatype TrackCall = NoCall | PlayTrack(track: Song) | PauseTrack(track: Song)

  /** `handlePlayPause`: the track goes to `onPause` while it plays, otherwise to `onPlay`. */
  function HandlePlayPause(track: Song, isPlaying: bool, hasOnPlay: bool, hasOnPause: bool): (r: TrackCall)
    ensures r.PauseTrack? <==> isPlaying && hasOnPause
    ensures r.PlayTrack? <==> !isPlaying && hasOnPlay
    ensures r != NoCall ==> r.track == track
  {
    if isPlaying then (if hasOnPause then PauseTrack(track) else NoCall)
    else if hasOnPlay then PlayTrack(track)
    else NoCall
  }

  /**
   * The characters between artist and album. The source file holds the UTF-8
   * bytes of a bullet decoded a second time, so the text is these three characters.
   */
  const Separator: string := " â€¢ "

  /**
   * The artist line: the artist, then the separator and the album only when
   * the album is shown and not empty (`false` and `""` render nothing).
   */
  function Subtitle(artist: string, album: string, showAlbum: bool): (r: string)
    ensures |r| == if showAlbum && album != "" then |artist| + |Separator| + |album| else |artist|
    ensures r[..|artist|] == artist
    ensures |r| > |artist| ==> r[|artist|..|artist| + |Separator|] == Separator && r[|r| - |album|..] == album
  {
    if showAlbum && album != "" then artist + Separator + album else artist
  }
}
