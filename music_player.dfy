/**
 * The player bar: its clock formatter, the play/pause button's dispatch to
 * the app's handlers, and the volume slider and mute button with the level
 * and icon they produce. Nothing is rendered without a current song.
 */
module MusicPlayer {
  import opened Wrappers
  import opened Text
  import opened Catalog
  import opened App

  /** Whole minutes and the floor of the remainder split the whole seconds elapsed. */
  lemma MinutesAndSeconds(seconds: real, mins: int)
    requires seconds >= 0.0 && mins == (seconds / 60.0).Floor
    ensures mins >= 0
    ensures 0 <= (seconds - 60.0 * mins as real).Floor < 60
    ensures mins * 60 + (seconds - 60.0 * mins as real).Floor == seconds.Floor
    ensures mins == seconds.Floor / 60 && (seconds - 60.0 * mins as real).Floor == seconds.Floor % 60
  {
    var q := seconds / 60.0;
    assert seconds == 60.0 * q;
    assert mins as real <= q < mins as real + 1.0;
    var x := seconds - 60.0 * mins as real;
    assert 0.0 <= x < 60.0;
    var f := seconds.Floor;
    assert f as real <= seconds < f as real + 1.0;
    var k := f - 60 * mins;
    assert k as real <= x < k as real + 1.0;
    assert x.Floor == k;
    assert 0 <= k < 60 && f == mins * 60 + k;
  }

  /**
   * `formatTime`: `Math.floor(seconds / 60)` minutes and `Math.floor(seconds % 60)`
   * seconds padded to two digits; it reads back as the whole seconds elapsed.
   */
  function FormatTime(seconds: real): (r: string)
    requires seconds >= 0.0
    ensures r == Clock(seconds.Floor / 60, seconds.Floor % 60)
    ensures ParseClock(r) == Some(seconds.Floor)
  {
    var mins := (seconds / 60.0).Floor;
    // `%` on a non-negative number: what is left after the whole minutes
    var secs := (seconds - 60.0 * mins as real).Floor;
    MinutesAndSeconds(seconds, mins);
    ClockRoundTrip(seconds.Floor / 60, seconds.Floor % 60);
    Clock(mins, secs)
  }

  /** The handler call the play/pause button makes. */
  datatype Dispatch = NoCall | PlayCalled(arg: Option<Song>) | PauseCalled

  /**
   * `handlePlayPause` as written: `onPause?.()` when playing, otherwise
   * `onPlay?.()`, with no argument.
   */
  function PlayPauseAsWritten(isPlaying: bool, hasOnPlay: bool, hasOnPause: bool): (r: Dispatch)
    ensures r == PauseCalled <==> isPlaying && hasOnPause
    ensures r.PlayCalled? <==> !isPlaying && hasOnPlay
    ensures r.PlayCalled? ==> r.arg.None?
  {
    if isPlaying then (if hasOnPause then PauseCalled else NoCall)
    else if hasOnPlay then PlayCalled(None)
    else NoCall
  }

  /** The dispatch the button is meant to make: resuming passes the current song. */
  function PlayPause(currentSong: Option<Song>, isPlaying: bool, hasOnPlay: bool, hasOnPause: bool)
    : (r: Dispatch)
    ensures r == PauseCalled <==> isPlaying && hasOnPause
    ensures r.PlayCalled? <==> !isPlaying && hasOnPlay
    ensures r.PlayCalled? ==> r.arg == currentSong
  {
    if isPlaying then (if hasOnPause then PauseCalled else NoCall)
    else if hasOnPlay then PlayCalled(currentSong)
    else NoCall
  }

  /** The app state after its handlers receive a dispatch. */
  function Deliver(p: Playback, d: Dispatch): Playback
  {
    match d
    case NoCall => p
    case PlayCalled(song) => OnPlay(song)
    case PauseCalled => OnPause(p)
  }

  /** `if (!currentSong) return null`: the bar shows only with a current song. */
  predicate Renders(p: Playback)
  {
    p.currentSong.Some?
  }

  /**
   * As written, pressing play on a paused song makes the app play `undefined`:
   * the song is lost, the state says it is playing, and the bar disappears.
   */
  lemma ResumeAsWrittenLosesSong(song: Song)
    ensures var p := Playback(Some(song), false);
      var q := Deliver(p, PlayPauseAsWritten(p.isPlaying, true, true));
      q.isPlaying && q.currentSong.None? && !Renders(q)
  {
  }

  /** With the current song passed, the button toggles playing and keeps the song and the bar. */
  lemma PlayPauseToggles(p: Playback)
    requires Renders(p)
    ensures var q := Deliver(p, PlayPause(p.currentSong, p.isPlaying, true, true));
      q.currentSong == p.currentSong && q.isPlaying == !p.isPlaying && Renders(q)
  {
  }

  /** The icon beside the volume slider. */
  datatype VolumeIcon = VolumeX | Volume1 | Volume2

  /** `isMuted ? 0 : volume`: the level the audio element gets. */
  function EffectiveVolume(volume: real, isMuted: bool): real
  {
    if isMuted then 0.0 else volume
  }

  /** The icon choice: crossed out when muted or at zero, then low or high around one half. */
  function IconFor(volume: real, isMuted: bool): VolumeIcon
  {
    if isMuted || volume == 0.0 then VolumeX else if volume < 0.5 then Volume1 else Volume2
  }

  /** The icon tells what the audio element plays at: silence, below one half, or above. */
  lemma IconMatchesLevel(volume: real, isMuted: bool)
    ensures IconFor(volume, isMuted) == VolumeX <==> EffectiveVolume(volume, isMuted) == 0.0
    ensures IconFor(volume, isMuted) == Volume1 <==>
      EffectiveVolume(volume, isMuted) != 0.0 && EffectiveVolume(volume, isMuted) < 0.5
    ensures IconFor(volume, isMuted) == Volume2 <==> EffectiveVolume(volume, isMuted) >= 0.5
  {
  }

  /** The volume state of the player bar. */
  class VolumeControl {
    var volume: real
    var isMuted: bool

    constructor ()
      ensures volume == 1.0 && !isMuted
    {
      volume := 1.0;
      isMuted := false;
    }

    /** `handleVolumeChange`: the slider value becomes the volume; muted exactly at zero. */
    method HandleVolumeChange(newVolume: real)
      modifies this
      ensures volume == newVolume && isMuted == (newVolume == 0.0)
      ensures EffectiveVolume(volume, isMuted) == newVolume
      ensures IconFor(volume, isMuted) == VolumeX <==> newVolume == 0.0
    {
      volume := newVolume;
      isMuted := newVolume == 0.0;
    }

    /** `toggleMute`: flips the mute flag and keeps the volume for unmuting. */
    method ToggleMute()
      modifies this
      ensures isMuted == !old(isMuted) && volume == old(volume)
      ensures EffectiveVolume(volume, isMuted) == if old(isMuted) then old(volume) else 0.0
    {
      isMuted := !isMuted;
    }
  }
}
