/**
 * The profile page: the library counts it shows, the listening time as
 * `Xh Ym`, and the settings record its controls update one key at a time.
 */
module Profile {
  import opened Wrappers
  import opened Seqs
  import opened Text
  import opened Catalog
  import opened UserLibrary

  // ---------------------------------------------------------------- listening time

  /** `formatListeningTime`: `${m}m` under an hour, else `${h}h ${m % 60}m`. */
  function FormatListeningTime(minutes: nat): (r: string)
    ensures minutes < 60 ==> r == NatToString(minutes) + "m"
  {
    var hours := minutes / 60;
    if hours > 0 then NatToString(hours) + "h " + NatToString(minutes % 60) + "m"
    else NatToString(minutes) + "m"
  }

  /** How many decimal digits `s` starts with. */
  function LeadingDigits(s: string): (n: nat)
    ensures n <= |s| && AllDigits(s[..n])
    ensures n < |s| ==> !IsDigit(s[n])
  {
    if s == [] || !IsDigit(s[0]) then 0
    else
      var k := LeadingDigits(s[1..]);
      assert s[..1 + k] == [s[0]] + s[1..][..k];
      1 + k
  }

  lemma {:induction false} LeadingDigitsOfConcat(a: string, b: string)
    requires AllDigits(a) && (b == [] || !IsDigit(b[0]))
    ensures LeadingDigits(a + b) == |a|
  {
    if a != [] {
      assert (a + b)[1..] == a[1..] + b;
      LeadingDigitsOfConcat(a[1..], b);
    } else {
      assert a + b == b;
    }
  }

  /**
   * Reads a listening time back as minutes: `<digits>m`, or
   * `<hours>h <minutes>m` with at least one hour and fewer than 60 minutes.
   */
  function ParseListeningTime(s: string): Option<nat>
  {
    if |s| < 2 || s[|s| - 1] != 'm' then None
    else
      var body := s[..|s| - 1];
      var d := LeadingDigits(body);
      if d == 0 then None
      else if d == |body| then Some(DigitsValue(body))
      else if d + 2 < |body| && body[d..d + 2] == "h " && AllDigits(body[d + 2..])
              && DigitsValue(body[..d]) >= 1 && DigitsValue(body[d + 2..]) < 60
      then Some(DigitsValue(body[..d]) * 60 + DigitsValue(body[d + 2..]))
      else None
  }

  /** Digits, `h `, digits and `m` read back as the two numbers, when the hour is positive and the minutes below 60. */
  lemma {:induction false} ParseHourParts(h: string, m: string)
    requires h != [] && m != [] && AllDigits(h) && AllDigits(m)
    requires DigitsValue(h) >= 1 && DigitsValue(m) < 60
    ensures ParseListeningTime(h + "h " + m + "m") == Some(DigitsValue(h) * 60 + DigitsValue(m))
  {
    var body := h + "h " + m;
    var s := body + "m";
    assert |s| >= 2 && s[|s| - 1] == 'm' && s[..|s| - 1] == body;
    var d := LeadingDigits(body);
    assert d == |h| by {
      assert body == h + ("h " + m);
      LeadingDigitsOfConcat(h, "h " + m);
    }
    assert d != 0 && d != |body| && d + 2 < |body|;
    assert body[..d] == h && body[d..d + 2] == "h " && body[d + 2..] == m;
  }

  /** The hour form `<hours>h <minutes>m` reads back as its hours and minutes. */
  lemma ParseHoursForm(hours: nat, mins: nat)
    requires hours >= 1 && mins < 60
    ensures ParseListeningTime(NatToString(hours) + "h " + NatToString(mins) + "m") == Some(hours * 60 + mins)
  {
    NatToStringRoundTrip(hours);
    NatToStringRoundTrip(mins);
    ParseHourParts(NatToString(hours), NatToString(mins));
  }

  /** The rendered listening time reads back as the minutes it was made from. */
  lemma ListeningTimeRoundTrip(minutes: nat)
    ensures ParseListeningTime(FormatListeningTime(minutes)) == Some(minutes)
  {
    var hours := minutes / 60;
    if hours > 0 {
      ParseHoursForm(hours, minutes % 60);
    } else {
      var s := FormatListeningTime(minutes);
      var body := NatToString(minutes);
      assert s[..|s| - 1] == body;
      LeadingDigitsOfConcat(body, "");
      assert body + "" == body;
      NatToStringRoundTrip(minutes);
    }
  }

  // ---------------------------------------------------------------- stats

  /** The four figures at the top of the page. */
  datatype Stats = Stats(totalSongs: nat, totalAlbums: nat, totalPlaylists: nat, listeningTime: nat)

  /** `loadProfile`'s figures: the list lengths, 0 for a missing playlist list. */
  function StatsOf(library: Library, listeningTime: nat): (s: Stats)
    ensures s.totalSongs == |library.savedSongs| && s.totalAlbums == |library.savedAlbums|
    ensures s.totalPlaylists == if library.playlists.Some? then |library.playlists.value| else 0
    ensures s.listeningTime == listeningTime
  {
    Stats(|library.savedSongs|, |library.savedAlbums|,
          if library.playlists.Some? then |library.playlists.value| else 0, listeningTime)
  }

  /** Saving a song the library does not hold yet raises the song count by one; saving it again does not. */
  lemma StatsAfterSavingSong(library: Library, song: Song, listeningTime: nat)
    ensures var saved := library.(savedSongs := AppendIfNewId(library.savedSongs, song, SongId));
      StatsOf(saved, listeningTime).totalSongs ==
        StatsOf(library, listeningTime).totalSongs + if HasId(library.savedSongs, song.id, SongId) then 0 else 1
  {
  }

  /** Removing a song lowers the song count by the number of saved entries with its id, which is none when it was not saved. */
  lemma StatsAfterRemovingSong(library: Library, songId: int, listeningTime: nat)
    ensures var kept := library.(savedSongs := RemoveId(library.savedSongs, songId, SongId));
      StatsOf(kept, listeningTime).totalSongs ==
        StatsOf(library, listeningTime).totalSongs - CountId(library.savedSongs, songId, SongId)
    ensures !HasId(library.savedSongs, songId, SongId) ==>
      StatsOf(library.(savedSongs := RemoveId(library.savedSongs, songId, SongId)), listeningTime) ==
        StatsOf(library, listeningTime)
  {
    RemoveIdLength(library.savedSongs, songId, SongId);
  }

  // ---------------------------------------------------------------- settings

  /** A setting is a switch or a choice among strings. */
  datatype SettingValue = Flag(on: bool) | Choice(value: string)

  type Settings = map<string, SettingValue>

  /** The settings the page starts with. */
  function InitialSettings(): Settings
  {
    map["audioQuality" := Choice("high"), "enableNotifications" := Flag(true),
        "enableOfflineMode" := Flag(true), "theme" := Choice("dark"), "language" := Choice("en")]
  }

  /** JavaScript truthiness of `settings[key]`; a missing key reads as `undefined`. */
  predicate Truthy(settings: Settings, key: string)
  {
    key in settings &&
    match settings[key]
    case Flag(on) => on
    case Choice(value) => value != ""
  }

  /** `{ ...prev, [key]: value }`: the key takes the value, every other key keeps its own. */
  function WithSetting(settings: Settings, key: string, value: SettingValue): (r: Settings)
    ensures key in r && r[key] == value
    ensures forall k :: k != key ==> (k in r <==> k in settings)
    ensures forall k :: k != key && k in settings ==> r[k] == settings[k]
  {
    settings[key := value]
  }

  /** A toggle's click writes the negation of what it shows. */
  function ToggledSetting(settings: Settings, key: string): (r: Settings)
    ensures Truthy(r, key) == !Truthy(settings, key)
  {
    WithSetting(settings, key, Flag(!Truthy(settings, key)))
  }

  /** Two clicks on a switch give back the settings it started from. */
  lemma ToggleTwiceRestores(settings: Settings, key: string)
    requires key in settings && settings[key].Flag?
    ensures ToggledSetting(ToggledSetting(settings, key), key) == settings
  {
    var twice := ToggledSetting(ToggledSetting(settings, key), key);
    assert twice[key] == settings[key];
    assert twice.Keys == settings.Keys;
  }

  /** The page's state cells. */
  class ProfilePage {
    var settings: Settings
    var stats: Stats

    constructor ()
      ensures settings == InitialSettings() && stats == Stats(0, 0, 0, 0)
    {
      settings := InitialSettings();
      stats := Stats(0, 0, 0, 0);
    }

    /**
     * `loadProfile`: the figures of the library read; the listening time is the
     * mock value the page draws, `Math.floor(Math.random() * 1000) + 500`.
     */
    method LoadProfile(library: Library, listeningTime: nat)
      modifies this
      ensures stats == StatsOf(library, listeningTime) && settings == old(settings)
    {
      stats := StatsOf(library, listeningTime);
    }

    /** `handleSettingChange`. */
    method HandleSettingChange(key: string, value: SettingValue)
      modifies this
      ensures settings == WithSetting(old(settings), key, value) && stats == old(stats)
    {
      settings := settings[key := value];
    }

    /** A click on a toggle: `handleSettingChange(key, !settings[key])`. */
    method ClickToggle(key: string)
      modifies this
      ensures settings == ToggledSetting(old(settings), key) && stats == old(stats)
    {
      HandleSettingChange(key, Flag(!Truthy(settings, key)));
    }
  }
}
