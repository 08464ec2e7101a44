/**
 * One row of the note list: the `m:ss` time format, the playback-speed cycle, and the
 * play/pause state kept beside the loaded sound.
 */
module VoiceNoteItem {
  import opened Wrappers
  import opened JsText

  // ---------------------------------------------------------------- time format

  /**
   * fmt: milliseconds as `m:ss`. `Math.floor(x / n)` for a positive `n` is Dafny's `/`;
   * the seconds use JavaScript's `%`, which keeps the sign of a negative input. For a
   * non-negative input the label is the whole minutes in decimal, a colon, and the seconds
   * left over as exactly two digits.
   */
  function Fmt(ms: int): (r: string)
    ensures 0 <= ms ==> r == Decimal(ms / 60000) + ":" + TwoDigits((ms / 1000) % 60)
  {
    var s := ms / 1000;
    var m := s / 60;
    var sec := JsRemainder(s, 60);
    ClockFields(ms);
    SecondsField(s);
    NumberText(m) + ":" + PadStart2(NumberText(sec))
  }

  /**
   * formatTime: a falsy input (0, NaN or undefined, the last two as `None`) formats as
   * fmt(0), that is `0:00`; any other number is passed to fmt.
   */
  function FormatTime(ms: Option<int>): (r: string)
    ensures ms.None? ==> r == "0:00"
    ensures ms.Some? ==> r == Fmt(ms.value)
  {
    assert Decimal(0) == "0";
    Fmt(if ms.None? || ms.value == 0 then 0 else ms.value)
  }

  /** The two digits of a number below 100. */
  function TwoDigits(n: nat): string
    requires n < 100
  {
    [DigitChar(n / 10), DigitChar(n % 10)]
  }

  /** Splitting ms into whole minutes and the seconds left over (floor division throughout). */
  lemma ClockFields(ms: int)
    ensures ms / 1000 / 60 == ms / 60000
    ensures ms / 1000 == 60 * (ms / 60000) + (ms / 1000) % 60
  {
    var s := ms / 1000;
    var m := s / 60;
    assert ms == 60000 * m + 1000 * (s % 60) + ms % 1000;
    assert 0 <= 1000 * (s % 60) + ms % 1000 < 60000;
  }

  /** For non-negative whole seconds, padding the remainder's decimal to two gives its two digits. */
  lemma SecondsField(s: int)
    ensures 0 <= s ==> PadStart2(NumberText(JsRemainder(s, 60))) == TwoDigits(s % 60)
  {
    if 0 <= s {
      var sec := s % 60;
      assert JsRemainder(s, 60) == sec;
      if sec < 10 {
        assert Decimal(sec) == [DigitChar(sec)];
      } else {
        assert Decimal(sec) == Decimal(sec / 10) + [DigitChar(sec % 10)];
        assert Decimal(sec / 10) == [DigitChar(sec / 10)];
      }
    }
  }

  /** Reads an `m:ss` label back as (minutes, seconds). */
  function ParseClock(t: string): Option<(nat, nat)> {
    if 4 <= |t| && t[|t| - 3] == ':' && AllDigits(t[..|t| - 3]) && AllDigits(t[|t| - 2..])
    then Some((ParseDecimal(t[..|t| - 3]), ParseDecimal(t[|t| - 2..])))
    else None
  }

  /** A label built from minutes and two-digit seconds reads back as those numbers. */
  lemma ParseClockOfParts(m: nat, sec: nat)
    requires sec < 100
    ensures ParseClock(Decimal(m) + ":" + TwoDigits(sec)) == Some((m, sec))
  {
    var t := Decimal(m) + ":" + TwoDigits(sec);
    DecimalRoundTrip(m);
    assert t[..|t| - 3] == Decimal(m);
    assert t[|t| - 2..] == TwoDigits(sec);
    assert ParseDecimal(TwoDigits(sec)) == sec by {
      var hi, lo := sec / 10, sec % 10;
      assert DigitValue(DigitChar(hi)) == hi && DigitValue(DigitChar(lo)) == lo;
      assert TwoDigits(sec)[..1] == [DigitChar(hi)];
      assert [DigitChar(hi)][..0] == [];
      assert ParseDecimal([DigitChar(hi)]) == hi;
    }
  }

  /** The label of a non-negative duration shows ⌊ms/60000⌋ minutes and ⌊ms/1000⌋ mod 60 seconds. */
  lemma FmtRoundTrip(ms: nat)
    ensures ParseClock(Fmt(ms)) == Some((ms / 60000, (ms / 1000) % 60))
  {
    ParseClockOfParts(ms / 60000, (ms / 1000) % 60);
  }

  /** Two non-negative durations get the same label exactly when they have the same whole seconds. */
  lemma FmtDistinguishesSeconds(a: nat, b: nat)
    ensures Fmt(a) == Fmt(b) <==> a / 1000 == b / 1000
  {
    if Fmt(a) == Fmt(b) {
      FmtRoundTrip(a);
      FmtRoundTrip(b);
      ClockFields(a);
      ClockFields(b);
    }
  }

  /**
   * A negative input keeps JavaScript's signs: the minutes are ⌊ms/60000⌋, printed with a
   * minus, and the seconds field is the remainder negated by `%` (so -1000 shows as `-1:-1`),
   * or `00` when the whole seconds are a multiple of 60.
   */
  lemma FmtNegative(ms: int)
    requires ms < 0
    ensures var k := (-(ms / 1000)) % 60;
      Fmt(ms) == "-" + Decimal(-(ms / 60000)) + ":" + (if k == 0 then "00" else "-" + Decimal(k))
  {
    ClockFields(ms);
    var s := ms / 1000;
    var k := (-s) % 60;
    assert s / 60 < 0;
    assert JsRemainder(s, 60) == -k;
    if k == 0 {
      assert NumberText(-k) == "0";
    } else {
      assert NumberText(-k) == "-" + Decimal(k);
    }
  }

  // ---------------------------------------------------------------- playback speed

  const SPEEDS: seq<real> := [1.0, 1.25, 1.5, 2.0]

  /** `xs.indexOf(x)`: the first position of `x`, or -1. */
  function IndexOf(xs: seq<real>, x: real): (i: int)
    ensures -1 <= i < |xs|
    ensures i == -1 <==> x !in xs
    ensures 0 <= i ==> xs[i] == x && x !in xs[..i]
  {
    if xs == [] then -1
    else if xs[0] == x then 0
    else
      var j := IndexOf(xs[1..], x);
      assert j >= 0 ==> xs[..j + 1] == [xs[0]] + xs[1..][..j];
      if j == -1 then -1 else j + 1
  }

  /** cycleSpeed's choice: the entry after the current speed's first position, wrapping around. */
  function NextSpeed(speed: real): (r: real)
    ensures r in SPEEDS
    ensures speed !in SPEEDS ==> r == 1.0
  {
    SPEEDS[(IndexOf(SPEEDS, speed) + 1) % |SPEEDS|]
  }

  /**
   * The next speed is always one of the four: each listed speed steps to its successor,
   * 2 wraps to 1, and a speed that is not listed (indexOf gives -1) steps to 1.
   */
  lemma NextSpeedCycle(speed: real)
    ensures NextSpeed(speed) in SPEEDS
    ensures NextSpeed(1.0) == 1.25 && NextSpeed(1.25) == 1.5 && NextSpeed(1.5) == 2.0 && NextSpeed(2.0) == 1.0
    ensures speed !in SPEEDS ==> NextSpeed(speed) == 1.0
  {
    assert IndexOf(SPEEDS, 1.0) == 0;
    assert IndexOf(SPEEDS, 1.25) == 1 by { assert SPEEDS[..1] == [1.0]; }
    assert IndexOf(SPEEDS, 1.5) == 2 by { assert SPEEDS[..2] == [1.0, 1.25]; }
    assert IndexOf(SPEEDS, 2.0) == 3 by { assert SPEEDS[..3] == [1.0, 1.25, 1.5]; }
  }

  /** Four presses bring a listed speed back to itself. */
  lemma FourPressesReturn(speed: real)
    requires speed in SPEEDS
    ensures NextSpeed(NextSpeed(NextSpeed(NextSpeed(speed)))) == speed
  {
    NextSpeedCycle(speed);
  }

  // ---------------------------------------------------------------- the play/pause state

  /** A loaded sound: whether it is playing, and the rates requested from it with setRateAsync. */
  datatype Sound = Sound(isPlaying: bool, rateRequests: seq<real>)

  /** The state of one VoiceNoteItem: `soundRef.current`, `playing`, `position` and `speed`. */
  class PlaybackItem {
    var sound: Option<Sound>
    var playing: bool
    var position: int
    var speed: real

    /**
     * "pause" is only shown while a sound is loaded; the speed is one of the four. Whether
     * the sound really plays is the device's business (`sound.value.isPlaying`), and the
     * shown state can lag behind it.
     */
    ghost predicate Valid()
      reads this
    {
      && (playing ==> sound.Some?)
      && speed in SPEEDS
    }

    constructor ()
      ensures Valid()
      ensures sound == None && !playing && position == 0 && speed == 1.0
    {
      sound := None;
      playing := false;
      position := 0;
      speed := 1.0;
    }

    /**
     * toggle: without a sound, load one that starts playing (asking for the current speed
     * only when it is not 1); with one, ask the device whether it plays, then pause it if
     * so and play it otherwise, showing the new state. `rejected` says whether an awaited
     * device call of that branch failed: the error is swallowed and nothing changes. After
     * a toggle that goes through, the shown state matches the device again.
     */
    method Toggle(rejected: bool)
      requires Valid()
      modifies this
      ensures Valid()
      ensures position == old(position) && speed == old(speed)
      ensures rejected ==> sound == old(sound) && playing == old(playing)
      ensures !rejected && old(sound).None? ==>
        sound == Some(Sound(true, if speed != 1.0 then [speed] else [])) && playing
      ensures !rejected && old(sound).Some? ==>
        sound == Some(old(sound).value.(isPlaying := !old(sound).value.isPlaying)) && playing == !old(sound).value.isPlaying
      ensures !rejected ==> sound.Some? && playing == sound.value.isPlaying
    {
      if rejected {
        return;
      }
      if sound.None? {
        var created := Sound(true, []);   // createAsync(..., { shouldPlay: true })
        sound := Some(created);
        playing := true;
        if speed != 1.0 {
          sound := Some(created.(rateRequests := [speed]));
        }
      } else {
        var current := sound.value;
        if current.isPlaying {
          sound := Some(current.(isPlaying := false));
          playing := false;
        } else {
          sound := Some(current.(isPlaying := true));
          playing := true;
        }
      }
    }

    /**
     * The playback-status callback: ignored unless loaded; records the position (`|| 0`),
     * and when playback has just finished stops showing "pause" and drops the sound, so
     * the next toggle loads it again.
     */
    method OnPlaybackStatus(isLoaded: bool, positionMillis: Option<int>, didJustFinish: bool)
      requires Valid()
      modifies this
      ensures Valid()
      ensures speed == old(speed)
      ensures !isLoaded ==> sound == old(sound) && playing == old(playing) && position == old(position)
      ensures isLoaded ==> position == positionMillis.GetOr(0)
      ensures isLoaded && didJustFinish ==> sound == None && !playing
      ensures !(isLoaded && didJustFinish) ==> sound == old(sound) && playing == old(playing)
    {
      if !isLoaded {
        return;
      }
      position := positionMillis.GetOr(0);
      if didJustFinish {
        playing := false;
        sound := None;   // unloadAsync()
      }
    }

    /**
     * The device pauses or resumes the loaded sound on its own (an interruption, the system
     * media controls). The status callback does not look at `isPlaying`, so the shown state
     * stays as it was.
     */
    method DeviceSetsPlaying(isPlaying: bool)
      requires Valid()
      modifies this
      ensures Valid()
      ensures playing == old(playing) && position == old(position) && speed == old(speed)
      ensures sound == if old(sound).None? then None else Some(old(sound).value.(isPlaying := isPlaying))
    {
      if sound.Some? {
        sound := Some(sound.value.(isPlaying := isPlaying));
      }
    }

    /** cycleSpeed: moves to the next speed and asks a loaded sound for it. */
    method CycleSpeed()
      requires Valid()
      modifies this
      ensures Valid()
      ensures speed == NextSpeed(old(speed))
      ensures playing == old(playing) && position == old(position)
      ensures sound == if old(sound).None? then None
                       else Some(old(sound).value.(rateRequests := old(sound).value.rateRequests + [speed]))
    {
      NextSpeedCycle(speed);
      speed := NextSpeed(speed);
      if sound.Some? {
        sound := Some(sound.value.(rateRequests := sound.value.rateRequests + [speed]));
      }
    }
  }
}
