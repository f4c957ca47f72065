/** The floating player under the Songs page: shuffle, repeat, karaoke-mode and
    mute flags, the volume and progress sliders (which only emit values through
    the parent's callbacks), the "m:ss" time labels and the size/shape classes. */
module DynamicPlayer {
  import opened Wrappers
  import opened Strings

  // ---------------------------------------------------------------------
  // formatTime

  /** A JavaScript number handed to `formatTime`: `NaN`, or a number of seconds. */
  datatype TimeValue = NaN | Seconds(t: real)

  /** JavaScript's `%` on numbers: truncating division, so the remainder has the
      sign of the dividend. */
  function JsRem(x: real, m: real): real
    requires m > 0.0
  {
    var q := x / m;
    var truncated := if q >= 0.0 then q.Floor else -((-q).Floor);
    x - m * truncated as real
  }

  /** `time % 60` has the sign of `time` and is smaller than 60 in magnitude. */
  lemma JsRemSixty(x: real)
    ensures x >= 0.0 ==> 0.0 <= JsRem(x, 60.0) < 60.0
    ensures x < 0.0 ==> -60.0 < JsRem(x, 60.0) <= 0.0
  {
    var q := x / 60.0;
    if q >= 0.0 {
      var k := q.Floor;
      assert k as real <= q < k as real + 1.0;
    } else {
      var k := (-q).Floor;
      assert k as real <= -q < k as real + 1.0;
    }
  }

  /** `formatTime(time)`. */
  function FormatTime(time: TimeValue): string
  {
    match time
    case NaN => "0:00"
    case Seconds(t) =>
      var minutes := (t / 60.0).Floor;
      var seconds := JsRem(t, 60.0).Floor;
      IntToString(minutes) + ":" + PadStart(IntToString(seconds), 2, '0')
  }

  /** Reads an "m:ss" label back as a number of whole seconds: minutes and
      seconds are decimal digit strings, the seconds exactly two of them. */
  function ParseTime(text: string): (seconds: Option<int>)
    ensures seconds.Some? ==> seconds.value >= 0
  {
    var parts := Split(text, ':');
    if |parts| != 2 then None else ParseFields(parts[0], parts[1])
  }

  /** The value of the minutes and seconds fields of a label. */
  function ParseFields(minutes: string, seconds: string): (total: Option<int>)
    ensures total.Some? ==> total.value >= 0
  {
    if |minutes| >= 1 && |seconds| == 2 && AllDigits(minutes) && AllDigits(seconds)
    then Some(DigitsToNat(minutes) * 60 + DigitsToNat(seconds))
    else None
  }

  predicate AllDigits(s: string)
  {
    forall i :: 0 <= i < |s| ==> IsDigit(s[i])
  }

  /** `Math.floor(x)` is the integer `k` with `k <= x < k + 1`. */
  lemma FloorIs(x: real, k: int)
    requires k as real <= x < k as real + 1.0
    ensures x.Floor == k
  {
  }

  /** For a non-negative time the minutes are `floor(t) div 60` and the seconds
      `floor(t) mod 60`. */
  lemma FormatTimeFields(t: real)
    requires t >= 0.0
    ensures (t / 60.0).Floor == t.Floor / 60
    ensures JsRem(t, 60.0).Floor == t.Floor % 60
  {
    var f := t.Floor;
    var m := f / 60;
    var s := f % 60;
    assert f == 60 * m + s && 0 <= s < 60;
    assert f as real <= t < f as real + 1.0;
    assert 60.0 * m as real <= t < 60.0 * m as real + 60.0;
    FloorIs(t / 60.0, m);
    assert JsRem(t, 60.0) == t - 60.0 * m as real;
    FloorIs(t - 60.0 * m as real, s);
  }

  /** The two-digit rendering of a seconds value below 60. */
  lemma TwoDigitSeconds(s: int)
    requires 0 <= s < 60
    ensures var d := PadStart(IntToString(s), 2, '0');
      |d| == 2 && (forall i :: 0 <= i < 2 ==> IsDigit(d[i])) && DigitsToNat(d) == s
  {
    assert IntToString(s) == NatToString(s);
    TwoDigits(s);
  }

  /** An "m:ss" label of digit strings splits into its two fields. */
  lemma SplitTimeFields(mm: string, ss: string)
    requires AllDigits(mm) && AllDigits(ss)
    ensures Split(mm + ":" + ss, ':') == [mm, ss]
  {
    NoSeparatorInDigits(mm);
    NoSeparatorInDigits(ss);
    SplitAtSeparator(mm, ':', ss);
    SplitWithoutSeparator(ss, ':');
  }

  /** Reading an "m:ss" label of digit strings reads its two fields. */
  lemma ParseTimeSplits(mm: string, ss: string)
    requires AllDigits(mm) && AllDigits(ss)
    ensures ParseTime(mm + ":" + ss) == ParseFields(mm, ss)
  {
    SplitTimeFields(mm, ss);
  }

  lemma NoSeparatorInDigits(s: string)
    requires AllDigits(s)
    ensures ':' !in s
  {
  }

  /** `NaN` renders as "0:00"; the label of a non-negative time is its minutes
      and two-digit seconds. */
  lemma FormatTimeShape(t: real)
    requires t >= 0.0
    ensures FormatTime(NaN) == "0:00"
    ensures FormatTime(Seconds(t)) ==
      NatToString(t.Floor / 60) + ":" + PadStart(IntToString(t.Floor % 60), 2, '0')
  {
    FormatTimeFields(t);
  }

  /** A label rendered from `m` minutes and `s < 60` seconds reads back as
      `m * 60 + s`. */
  lemma ParseRenderedLabel(text: string, m: nat, s: int)
    requires 0 <= s < 60
    requires text == NatToString(m) + ":" + PadStart(IntToString(s), 2, '0')
    ensures ParseTime(text) == Some(m * 60 + s)
  {
    var mm, ss := NatToString(m), PadStart(IntToString(s), 2, '0');
    TwoDigitSeconds(s);
    DigitsOfNatToString(m);
    ParseTimeSplits(mm, ss);
  }

  /** `formatTime` of a non-negative time reads back as its whole seconds:
      the label is "m:ss" with `m * 60 + ss == floor(t)` and `ss` below 60. */
  lemma FormatTimeRoundTrip(t: real)
    requires t >= 0.0
    ensures ParseTime(FormatTime(Seconds(t))) == Some(t.Floor)
  {
    var f := t.Floor;
    FormatTimeShape(t);
    ParseRenderedLabel(FormatTime(Seconds(t)), f / 60, f % 60);
  }

  // ---------------------------------------------------------------------
  // Repeat modes

  datatype RepeatMode = Off | One | All

  /** `['off', 'one', 'all']`. */
  const Modes: seq<RepeatMode> := [Off, One, All]

  /** The label shown (`Repeat: off`, ...). */
  function ModeName(m: RepeatMode): string
  {
    match m
    case Off => "off"
    case One => "one"
    case All => "all"
  }

  /** `modes.indexOf(mode)`. */
  function IndexOfMode(m: RepeatMode): (i: int)
    ensures 0 <= i < |Modes| && Modes[i] == m
  {
    match m
    case Off => 0
    case One => 1
    case All => 2
  }

  /** `modes[(modes.indexOf(repeatMode) + 1) % modes.length]`. */
  function NextMode(m: RepeatMode): (next: RepeatMode)
    ensures next != m
  {
    Modes[(IndexOfMode(m) + 1) % |Modes|]
  }

  /** Repeat cycles off, one, all, off; three presses return to the start. */
  lemma RepeatCycle(m: RepeatMode)
    ensures NextMode(Off) == One && NextMode(One) == All && NextMode(All) == Off
    ensures NextMode(m) != m
    ensures NextMode(NextMode(NextMode(m))) == m
  {
  }

  // ---------------------------------------------------------------------
  // Derived values

  /** The prop defaults: `currentTime = 0`, `duration = 0`, `volume = 1`. */
  const DefaultCurrentTime: real := 0.0
  const DefaultDuration: real := 0.0
  const DefaultVolume: real := 1.0

  /** `progressPercentage`: 0 until the duration is positive. */
  function ProgressPercentage(currentTime: real, duration: real): (p: real)
    ensures duration <= 0.0 ==> p == 0.0
    ensures duration > 0.0 ==> p * duration == currentTime * 100.0
  {
    if duration > 0.0 then (currentTime / duration) * 100.0 else 0.0
  }

  /** `volumePercentage`: 0 while muted. */
  function VolumePercentage(isMuted: bool, volume: real): (p: real)
    ensures isMuted ==> p == 0.0
    ensures 0.0 <= volume <= 1.0 ==> 0.0 <= p <= 100.0
  {
    if isMuted then 0.0 else volume * 100.0
  }

  /** The time `handleProgressChange` sends to `onSeek` for slider position `percent`. */
  function SeekTime(percent: real, duration: real): (t: real)
    ensures 0.0 <= percent <= 100.0 && duration >= 0.0 ==> 0.0 <= t <= duration
  {
    (percent / 100.0) * duration
  }

  /** Seeking to the percentage the progress bar shows gives back the current time. */
  lemma SeekToShownProgress(currentTime: real, duration: real)
    requires duration > 0.0
    ensures SeekTime(ProgressPercentage(currentTime, duration), duration) == currentTime
  {
  }

  /** Moving the volume slider to its shown (unmuted) position emits the volume itself. */
  lemma SliderAtShownVolume(volume: real)
    ensures VolumePercentage(false, volume) / 100.0 == volume
  {
  }

  /** `handleProgressChange(value)`: the seek time goes to `onSeek`; the Songs
      page supplies no `onSeek`, and calling `undefined` throws, emitting nothing. */
  function ProgressChange(percent: real, duration: real, hasOnSeek: bool): (emitted: Option<real>)
    ensures emitted.Some? <==> hasOnSeek
    ensures hasOnSeek ==> emitted.value * 100.0 == percent * duration
    ensures hasOnSeek && duration > 0.0 ==>
      ProgressPercentage(emitted.value, duration) == percent
  {
    if hasOnSeek then Some(SeekTime(percent, duration)) else None
  }

  /** `getPlayerSizeClass`. */
  function SizeClass(size: string): (c: string)
    ensures size == "small" ==> c == "w-80 h-20"
    ensures size == "large" ==> c == "w-full h-32"
    ensures size != "small" && size != "large" ==> c == "w-96 h-24"
  {
    if size == "small" then "w-80 h-20"
    else if size == "large" then "w-full h-32"
    else "w-96 h-24"
  }

  /** `getPlayerShapeClass`. */
  function ShapeClass(shape: string): (c: string)
    ensures shape == "square" ==> c == "rounded-none"
    ensures shape == "circle" ==> c == "rounded-full"
    ensures shape != "square" && shape != "circle" ==> c == "rounded-2xl"
  {
    if shape == "square" then "rounded-none"
    else if shape == "circle" then "rounded-full"
    else "rounded-2xl"
  }

  /** The three size classes, and the three shape classes, are distinct, so the
      selection is visible; every unlisted value falls to the default. */
  lemma ClassesDistinct(size: string, shape: string)
    ensures SizeClass("small") != SizeClass("large") && SizeClass("small") != SizeClass("medium")
      && SizeClass("large") != SizeClass("medium")
    ensures ShapeClass("square") != ShapeClass("circle") && ShapeClass("square") != ShapeClass("rounded")
      && ShapeClass("circle") != ShapeClass("rounded")
    ensures SizeClass(size) in {"w-80 h-20", "w-full h-32", "w-96 h-24"}
    ensures ShapeClass(shape) in {"rounded-none", "rounded-full", "rounded-2xl"}
  {
  }

  // ---------------------------------------------------------------------
  // The component state

  class Player {
    var isMuted: bool
    var isShuffled: bool
    var repeatMode: RepeatMode
    var isKaraokeMode: bool
    var playerSize: string
    var playerShape: string

    constructor ()
      ensures !isMuted && !isShuffled && repeatMode == Off && !isKaraokeMode
      ensures playerSize == "medium" && playerShape == "rounded"
    {
      isMuted, isShuffled, repeatMode, isKaraokeMode := false, false, Off, false;
      playerSize, playerShape := "medium", "rounded";
    }

    /** `handleShuffle`: flips the shuffle flag. */
    method HandleShuffle()
      modifies this`isShuffled
      ensures isShuffled == !old(isShuffled)
    {
      isShuffled := !isShuffled;
    }

    /** `handleRepeat`: moves to the next repeat mode. */
    method HandleRepeat()
      modifies this`repeatMode
      ensures repeatMode == NextMode(old(repeatMode))
    {
      var nextMode := Modes[(IndexOfMode(repeatMode) + 1) % |Modes|];
      repeatMode := nextMode;
    }

    /** `toggleKaraokeMode`: only a karaoke track's mode flips. */
    method ToggleKaraokeMode(isKaraokeTrack: bool)
      modifies this`isKaraokeMode
      ensures isKaraokeMode == if isKaraokeTrack then !old(isKaraokeMode) else old(isKaraokeMode)
    {
      if !isKaraokeTrack {
        return;
      }
      isKaraokeMode := !isKaraokeMode;
    }

    /** `handleVolumeSliderChange([value])`: emits `value / 100`; muted exactly
        when that is 0. Without an `onVolumeChange` the call throws first, so
        nothing is emitted and the flag stays. */
    method HandleVolumeSliderChange(value: real, hasOnVolumeChange: bool) returns (emitted: Option<real>)
      modifies this`isMuted
      ensures hasOnVolumeChange ==> emitted == Some(value / 100.0) && isMuted == (value == 0.0)
      ensures !hasOnVolumeChange ==> emitted == None && isMuted == old(isMuted)
    {
      var newVolume := value / 100.0;
      if !hasOnVolumeChange {
        return None;
      }
      emitted := Some(newVolume);
      if newVolume == 0.0 {
        isMuted := true;
      } else if isMuted {
        isMuted := false;
      }
    }

    /** `toggleMute`: unmuted, it emits 0 and mutes; muted, it emits the current
        `volume` prop (no pre-mute volume is kept) and unmutes. Without an
        `onVolumeChange` the call throws first. */
    method ToggleMute(volume: real, hasOnVolumeChange: bool) returns (emitted: Option<real>)
      modifies this`isMuted
      ensures hasOnVolumeChange ==>
        isMuted == !old(isMuted) && emitted == Some(if old(isMuted) then volume else 0.0)
      ensures !hasOnVolumeChange ==> emitted == None && isMuted == old(isMuted)
    {
      if !hasOnVolumeChange {
        return None;
      }
      if isMuted {
        emitted := Some(volume);
        isMuted := false;
      } else {
        emitted := Some(0.0);
        isMuted := true;
      }
    }

    /** The size selector's `onChange`. */
    method SetPlayerSize(value: string)
      modifies this`playerSize
      ensures playerSize == value
    {
      playerSize := value;
    }

    /** The shape selector's `onChange`. */
    method SetPlayerShape(value: string)
      modifies this`playerShape
      ensures playerShape == value
    {
      playerShape := value;
    }

    /** The class list of the player box. */
    function BoxClasses(): string
      reads this
    {
      SizeClass(playerSize) + " " + ShapeClass(playerShape)
    }
  }
}
