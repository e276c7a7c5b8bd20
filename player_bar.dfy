/** The player bar: the clock text, the volume icon, the progress fraction and the local
    volume/mute bookkeeping (`localVolume`, `previousVolume`) that drives the provider. */
module PlayerBar {
  import opened Types
  import opened Strings
  import Player

  /** Truncation toward zero, as JavaScript's `%` uses it. */
  function Trunc(x: real): int {
    if x >= 0.0 then x.Floor else -((-x).Floor)
  }

  /** JavaScript's `%` on numbers: the remainder takes the sign of the dividend. */
  function JsRem(a: real, b: real): real
    requires b > 0.0
  {
    a - b * (Trunc(a / b) as real)
  }

  /** `formatTime`: `Math.floor(t / 60)`, a colon, then `Math.floor(t % 60)` padded to two
      characters with '0'. */
  function FormatTime(t: real): (text: string)
    ensures t >= 0.0 ==> text == ClockText(t.Floor / 60, t.Floor % 60)
  {
    var text := ClockText((t / 60.0).Floor, JsRem(t, 60.0).Floor);
    if t >= 0.0 then FloorParts(t); text else text
  }

  function ClockText(minutes: int, seconds: int): string {
    IntToString(minutes) + ":" + PadStart(IntToString(seconds), 2, '0')
  }

  lemma FloorParts(t: real)
    requires t >= 0.0
    ensures (t / 60.0).Floor == t.Floor / 60
    ensures JsRem(t, 60.0).Floor == t.Floor % 60
  {
    var m := (t / 60.0).Floor;
    var f := t.Floor;
    assert m as real <= t / 60.0 < m as real + 1.0;
    assert 60.0 * (m as real) <= t < 60.0 * (m as real) + 60.0;
    assert f as real <= t < f as real + 1.0;
    assert 60 * m <= f < 60 * m + 60;
    assert f / 60 == m;
    var r := JsRem(t, 60.0);
    assert Trunc(t / 60.0) == m;
    assert r == t - 60.0 * (m as real);
    assert (f - 60 * m) as real <= r < (f - 60 * m) as real + 1.0;
  }

  /** The clock text of whole minutes and seconds below 60: the seconds take exactly two digits. */
  lemma TwoDigitSeconds(minutes: int, secs: int)
    requires 0 <= minutes && 0 <= secs < 60
    ensures ClockText(minutes, secs) == NatToString(minutes) + ":" + [DigitChar(secs / 10), DigitChar(secs % 10)]
  {
    var digits := NatToString(secs);
    if secs < 10 {
      assert digits == [DigitChar(secs)];
      assert PadStart(digits, 2, '0') == ['0'] + digits;
    } else {
      assert digits == NatToString(secs / 10) + [DigitChar(secs % 10)];
      assert NatToString(secs / 10) == [DigitChar(secs / 10)];
    }
  }

  /** For a non-negative time the text is the minutes in decimal, a colon and exactly two
      digits for the seconds 00-59. */
  lemma FormatTimeShape(t: real)
    requires t >= 0.0
    ensures var secs := t.Floor % 60;
      FormatTime(t) == NatToString(t.Floor / 60) + ":" + [DigitChar(secs / 10), DigitChar(secs % 10)]
  {
    FloorParts(t);
    TwoDigitSeconds(t.Floor / 60, t.Floor % 60);
  }

  /** A clock text: digits, a colon, then exactly two digits. */
  predicate ClockShaped(s: string) {
    |s| >= 4 && s[|s| - 3] == ':' && forall i :: 0 <= i < |s| && i != |s| - 3 ==> IsDigit(s[i])
  }

  /** Reads a clock text back as whole seconds. */
  function ParseClock(s: string): int
    requires ClockShaped(s)
  {
    ParseNat(s[..|s| - 3]) * 60 + ParseNat(s[|s| - 2..])
  }

  /** Two digits read back as the number below 100 they render. */
  lemma ParseTwoDigits(secs: nat)
    requires secs < 60
    ensures var two := [DigitChar(secs / 10), DigitChar(secs % 10)];
      IsDigit(two[0]) && IsDigit(two[1]) && ParseNat(two) == secs
  {
    var two := [DigitChar(secs / 10), DigitChar(secs % 10)];
    var tens := [DigitChar(secs / 10)];
    assert two[..1] == tens;
    assert tens[..0] == [];
    assert ParseNat(tens) == secs / 10;
  }

  lemma ParseClockText(minutes: nat, secs: nat)
    requires secs < 60
    ensures var s := NatToString(minutes) + ":" + [DigitChar(secs / 10), DigitChar(secs % 10)];
      ClockShaped(s) && ParseClock(s) == minutes * 60 + secs
  {
    var mins := NatToString(minutes);
    var two := [DigitChar(secs / 10), DigitChar(secs % 10)];
    ParseTwoDigits(secs);
    var s := mins + ":" + two;
    assert s[..|s| - 3] == mins;
    assert s[|s| - 2..] == two;
    assert ClockShaped(s) by {
      forall i | 0 <= i < |s| && i != |s| - 3 ensures IsDigit(s[i]) {
        if i < |mins| {
          assert s[i] == mins[i];
        } else {
          assert s[i] == two[i - |mins| - 1];
        }
      }
    }
    ParseNatToString(minutes);
  }

  /** Round trip: parsing the clock text of a non-negative time gives its whole seconds. */
  lemma ClockRoundTrip(t: real)
    requires t >= 0.0
    ensures ClockShaped(FormatTime(t)) && ParseClock(FormatTime(t)) == t.Floor
  {
    FormatTimeShape(t);
    ParseClockText(t.Floor / 60, t.Floor % 60);
  }

  datatype VolumeIcon = VolumeOff | VolumeMute | VolumeDown | VolumeUp

  /** `getVolumeIcon`: exactly one icon per volume, by the thresholds 0, 0.3 and 0.7. */
  function GetVolumeIcon(v: real): (icon: VolumeIcon)
    ensures icon == VolumeOff <==> v == 0.0
    ensures icon == VolumeMute <==> v != 0.0 && v < 0.3
    ensures icon == VolumeDown <==> 0.3 <= v < 0.7
    ensures icon == VolumeUp <==> 0.7 <= v
  {
    if v == 0.0 then VolumeOff
    else if v < 0.3 then VolumeMute
    else if v < 0.7 then VolumeDown
    else VolumeUp
  }

  function IconLevel(icon: VolumeIcon): nat {
    match icon
    case VolumeOff => 0
    case VolumeMute => 1
    case VolumeDown => 2
    case VolumeUp => 3
  }

  /** Over the slider's range the icon never shows less for a louder volume. (A negative
      volume, which the slider cannot produce, would show the "mute" icon, above "off".) */
  lemma VolumeIconMonotone(v1: real, v2: real)
    requires 0.0 <= v1 <= v2
    ensures IconLevel(GetVolumeIcon(v1)) <= IconLevel(GetVolumeIcon(v2))
  {
  }

  /** A quotient of a non-negative value by a larger positive one lies in [0, 1]. */
  lemma QuotientAtMostOne(a: real, b: real)
    requires 0.0 <= a <= b && 0.0 < b
    ensures 0.0 <= a / b <= 1.0
  {
    assert (a / b) * b == a;
  }

  /** The progress-bar width: `currentTime / (duration || 1) * 100`. */
  function ProgressPercent(currentTime: real, duration: real): (p: real)
    ensures duration == 0.0 ==> p == currentTime * 100.0
    ensures 0.0 <= currentTime <= duration ==> 0.0 <= p <= 100.0
    ensures 0.0 < duration ==> p * duration == currentTime * 100.0
  {
    var divisor := if duration == 0.0 then 1.0 else duration;
    var q := currentTime / divisor;
    if 0.0 <= currentTime <= duration && 0.0 < duration then
      QuotientAtMostOne(currentTime, duration);
      q * 100.0
    else
      q * 100.0
  }

  datatype BarLayout = Hidden | MobileBar | DesktopBar

  /** The bar renders nothing without a current track, then the mobile or the desktop layout. */
  function Layout(currentTrack: Option<Track>, isMobile: bool): (l: BarLayout)
    ensures l == Hidden <==> currentTrack.None?
    ensures l == MobileBar <==> currentTrack.Some? && isMobile
  {
    if currentTrack.None? then Hidden else if isMobile then MobileBar else DesktopBar
  }

  /** The bar's local volume state beside the provider's state. */
  datatype VolumeUi = VolumeUi(localVolume: real, previousVolume: real, player: Player.PlayerState)

  /** The local half of `handleToggleMute`: above zero, remember the level and go to zero;
      at zero, go back to the remembered level. */
  function MuteButtonLevels(localVolume: real, previousVolume: real): (r: (real, real))
    ensures localVolume > 0.0 ==> r == (0.0, localVolume)
    ensures localVolume <= 0.0 ==> r == (previousVolume, previousVolume)
  {
    if localVolume > 0.0 then (0.0, localVolume) else (previousVolume, previousVolume)
  }

  /** Muting then unmuting returns to the original level. */
  lemma MuteThenUnmuteRestoresLevel(localVolume: real, previousVolume: real)
    requires localVolume > 0.0
    ensures var m := MuteButtonLevels(localVolume, previousVolume);
      MuteButtonLevels(m.0, m.1) == (localVolume, localVolume)
  {
  }

  /** `handleVolumeChange(v)`: the slider sets both the local and the provider's volume. */
  function SliderChange(u: VolumeUi, v: real): (r: VolumeUi)
    ensures r.localVolume == v && r.player.volume == v && r.player.audio.volume == v
    ensures r.previousVolume == u.previousVolume && r.player.isMuted == u.player.isMuted
  {
    VolumeUi(v, u.previousVolume, Player.SetVolumeStep(u.player, v))
  }

  /** `handleToggleMute` as written: the levels swap as above, the provider's volume follows the
      local one, and the provider's `toggleMute` flips `isMuted` on every press. */
  function ToggleMuteAsWritten(u: VolumeUi): (r: VolumeUi)
    ensures (r.localVolume, r.previousVolume) == MuteButtonLevels(u.localVolume, u.previousVolume)
    ensures r.player.volume == r.localVolume && r.player.audio.volume == r.localVolume
    ensures r.player.isMuted == !u.player.isMuted && r.player.audio.muted == r.player.isMuted
  {
    var levels := MuteButtonLevels(u.localVolume, u.previousVolume);
    VolumeUi(levels.0, levels.1, Player.ToggleMuteStep(Player.SetVolumeStep(u.player, levels.0)))
  }

  /** The element produces sound only with a positive volume and without the muted flag. */
  predicate Audible(s: Player.PlayerState) {
    s.audio.volume > 0.0 && !s.audio.muted
  }

  /** The button's silent states: volume at zero while unmuted, volume up while muted, or both
      the volume and the remembered level at zero while muted. */
  predicate SilentOutOfStep(u: VolumeUi) {
    u.player.audio.volume == u.localVolume &&
    u.player.audio.muted == u.player.isMuted &&
    ((u.localVolume <= 0.0 && !u.player.isMuted) ||
     (u.localVolume > 0.0 && u.player.isMuted) ||
     (u.localVolume <= 0.0 && u.player.isMuted && u.previousVolume <= 0.0))
  }

  function PressesAsWritten(u: VolumeUi, n: nat): VolumeUi
    decreases n
  {
    if n == 0 then u else PressesAsWritten(ToggleMuteAsWritten(u), n - 1)
  }

  /** Once the slider has taken the volume to zero while unmuted, no number of presses of the
      mute button makes the player audible again: it alternates between "volume restored but
      muted" and "volume zero but unmuted". */
  lemma {:induction false} SliderToZeroSilencesButton(u: VolumeUi, n: nat)
    requires !u.player.isMuted
    ensures !Audible(PressesAsWritten(SliderChange(u, 0.0), n).player)
  {
    ButtonKeepsSilence(SliderChange(u, 0.0), n);
  }

  lemma {:induction false} ButtonKeepsSilence(u: VolumeUi, n: nat)
    requires SilentOutOfStep(u)
    ensures SilentOutOfStep(PressesAsWritten(u, n)) && !Audible(PressesAsWritten(u, n).player)
    decreases n
  {
    if n > 0 {
      ButtonKeepsSilence(ToggleMuteAsWritten(u), n - 1);
    }
  }

  /** The corrected button: the levels swap as written, and the provider's mute flag is toggled
      only when it disagrees with "the new level is zero", so the flag stays in step with it. */
  function ToggleMuteCorrected(u: VolumeUi): (r: VolumeUi)
    ensures (r.localVolume, r.previousVolume) == MuteButtonLevels(u.localVolume, u.previousVolume)
    ensures r.player.volume == r.localVolume && r.player.audio.volume == r.localVolume
    ensures r.player.isMuted == (r.localVolume == 0.0) && r.player.audio.muted == r.player.isMuted
  {
    var levels := MuteButtonLevels(u.localVolume, u.previousVolume);
    var withLevel := Player.SetVolumeStep(u.player, levels.0);
    VolumeUi(levels.0, levels.1,
             if withLevel.isMuted != (levels.0 == 0.0) then Player.ToggleMuteStep(withLevel) else withLevel)
  }

  /** With the correction every press flips audibility: a positive level goes silent and a zero
      level comes back audible at the remembered level, whatever the slider did before. */
  lemma CorrectedButtonFlipsAudibility(u: VolumeUi)
    requires u.previousVolume > 0.0 && u.localVolume >= 0.0
    ensures Audible(ToggleMuteCorrected(u).player) <==> u.localVolume == 0.0
    ensures u.localVolume == 0.0 ==> ToggleMuteCorrected(u).player.volume == u.previousVolume
  {
  }

  /** The state the bar keeps, bound to the provider it drives. */
  class VolumeControl {
    const player: Player.PlayerProvider
    var localVolume: real
    var previousVolume: real

    function State(): VolumeUi
      reads this, player, player.audio
    {
      VolumeUi(localVolume, previousVolume, player.State())
    }

    /** Mounting: both start at `playerVolume || 0.7`, then the sync effect copies the provider's
        volume into `localVolume`. */
    constructor (p: Player.PlayerProvider)
      ensures player == p
      ensures localVolume == p.volume
      ensures previousVolume == if p.volume == 0.0 then 0.7 else p.volume
    {
      player := p;
      var initial := if p.volume == 0.0 then 0.7 else p.volume;
      localVolume := initial;
      previousVolume := initial;
      localVolume := p.volume;
    }

    method HandleVolumeChange(v: real)
      modifies this, player, player.audio
      ensures State() == SliderChange(old(State()), v)
    {
      localVolume := v;
      player.SetVolume(v);
    }

    method HandleToggleMute()
      modifies this, player, player.audio
      ensures State() == ToggleMuteAsWritten(old(State()))
    {
      if localVolume > 0.0 {
        previousVolume := localVolume;
        localVolume := 0.0;
        player.SetVolume(0.0);
      } else {
        localVolume := previousVolume;
        player.SetVolume(previousVolume);
      }
      player.ToggleMute();
    }
  }
}
