/**
 * The hero section's opening countdown and its scroll flag. Every second the
 * remaining distance to the opening, in milliseconds, is split into days,
 * hours, minutes and seconds, but only while it is positive; each part is
 * shown padded to two digits. Scroll events schedule at most one pending
 * animation frame at a time.
 */
module Hero {
  import opened Arithmetic

  const MsPerSecond: int := 1000
  const MsPerMinute: int := 60000
  const MsPerHour: int := 3600000
  const MsPerDay: int := 86400000

  /** The four numbers the countdown shows. */
  datatype Countdown = Countdown(days: int, hours: int, minutes: int, seconds: int)

  const Zero: Countdown := Countdown(0, 0, 0, 0)

  /** Every part is non-negative and the clock parts are within their units. */
  predicate Normal(c: Countdown)
  {
    c.days >= 0 && 0 <= c.hours < 24 && 0 <= c.minutes < 60 && 0 <= c.seconds < 60
  }

  /** The whole milliseconds a countdown stands for. */
  function Compose(c: Countdown): int
  {
    c.days * MsPerDay + c.hours * MsPerHour + c.minutes * MsPerMinute + c.seconds * MsPerSecond
  }

  /** Split a positive distance into whole days, hours, minutes and seconds. */
  function Decompose(distance: int): (c: Countdown)
    requires distance > 0
    ensures Normal(c)
  {
    Countdown(
      distance / MsPerDay,
      (distance % MsPerDay) / MsPerHour,
      (distance % MsPerHour) / MsPerMinute,
      (distance % MsPerMinute) / MsPerSecond)
  }

  /** The parts add back up to the distance, less its sub-second remainder. */
  lemma DecomposeRecomposes(distance: int)
    requires distance > 0
    ensures Compose(Decompose(distance)) + distance % MsPerSecond == distance
  {
    var c := Decompose(distance);
    var r1 := distance % MsPerDay;
    assert distance == c.days * MsPerDay + r1;
    var r2 := r1 % MsPerHour;
    assert r1 == c.hours * MsPerHour + r2;
    DivModUnique(distance, MsPerHour, c.days * 24 + c.hours, r2);
    var r3 := r2 % MsPerMinute;
    assert r2 == c.minutes * MsPerMinute + r3;
    DivModUnique(distance, MsPerMinute, (c.days * 24 + c.hours) * 60 + c.minutes, r3);
    var r4 := r3 % MsPerSecond;
    assert r3 == c.seconds * MsPerSecond + r4;
    DivModUnique(distance, MsPerSecond, ((c.days * 24 + c.hours) * 60 + c.minutes) * 60 + c.seconds, r4);
  }

  /** The other direction: a normal countdown plus less than a second of
      milliseconds decomposes back to itself, so the split is unique. */
  lemma DecomposeCompose(c: Countdown, millis: int)
    requires Normal(c) && 0 <= millis < MsPerSecond
    requires Compose(c) + millis > 0
    ensures Decompose(Compose(c) + millis) == c
  {
    var d := Compose(c) + millis;
    var belowMinute := c.seconds * MsPerSecond + millis;
    var belowHour := c.minutes * MsPerMinute + belowMinute;
    var belowDay := c.hours * MsPerHour + belowHour;
    DivModUnique(d, MsPerDay, c.days, belowDay);
    DivModUnique(belowDay, MsPerHour, c.hours, belowHour);
    DivModUnique(d, MsPerHour, c.days * 24 + c.hours, belowHour);
    DivModUnique(belowHour, MsPerMinute, c.minutes, belowMinute);
    DivModUnique(d, MsPerMinute, (c.days * 24 + c.hours) * 60 + c.minutes, belowMinute);
    DivModUnique(belowMinute, MsPerSecond, c.seconds, millis);
  }

  /** One firing of the one-second interval: the state changes only while the
      distance is positive. */
  function CountdownAfter(c: Countdown, distance: int): (r: Countdown)
    ensures distance <= 0 ==> r == c
    ensures Normal(c) ==> Normal(r)
    ensures distance > 0 ==> Compose(r) <= distance < Compose(r) + MsPerSecond
  {
    if distance > 0 then
      DecomposeRecomposes(distance);
      Decompose(distance)
    else c
  }

  // ---------------------------------------------------------------------
  // Two-digit display
  // ---------------------------------------------------------------------

  predicate IsDigit(ch: char)
  {
    '0' <= ch <= '9'
  }

  function DigitChar(d: nat): (ch: char)
    requires d < 10
    ensures IsDigit(ch)
  {
    (('0' as int) + d) as char
  }

  function DigitValue(ch: char): (d: nat)
    requires IsDigit(ch)
    ensures d < 10
  {
    (ch as int) - ('0' as int)
  }

  predicate AllDigits(s: string)
  {
    forall i :: 0 <= i < |s| ==> IsDigit(s[i])
  }

  /** `String(n)` of a non-negative integer: its decimal digits, no leading zero. */
  function Decimal(n: nat): (s: string)
    ensures 1 <= |s| && AllDigits(s)
    ensures |s| == 1 <==> n < 10
    ensures n >= 10 ==> s[0] != '0'
    decreases n
  {
    if n < 10 then [DigitChar(n)] else Decimal(n / 10) + [DigitChar(n % 10)]
  }

  /** The value of a string of decimal digits (leading zeros allowed). */
  function ParseDecimal(s: string): nat
    requires AllDigits(s)
    decreases |s|
  {
    if s == [] then 0 else ParseDecimal(s[..|s| - 1]) * 10 + DigitValue(s[|s| - 1])
  }

  /** Reading back the decimal digits of `n` gives `n`. */
  lemma {:induction false} ParseDecimalOfDecimal(n: nat)
    ensures ParseDecimal(Decimal(n)) == n
    decreases n
  {
    var s := Decimal(n);
    if n < 10 {
      assert s[..0] == [];
    } else {
      ParseDecimalOfDecimal(n / 10);
      assert s[..|s| - 1] == Decimal(n / 10);
    }
  }

  /** `s.padStart(width, fill)`: prefix copies of `fill` up to `width` characters. */
  function PadStart(s: string, width: nat, fill: char): (r: string)
    ensures |r| == if |s| < width then width else |s|
    ensures r[|r| - |s|..] == s
    ensures forall i :: 0 <= i < |r| - |s| ==> r[i] == fill
  {
    if |s| >= width then s else seq(width - |s|, _ => fill) + s
  }

  /** A leading zero before a digit does not change the value read. */
  lemma {:induction false} ParseLeadingZero(s: string)
    requires AllDigits(s)
    ensures ParseDecimal(['0'] + s) == ParseDecimal(s)
    decreases |s|
  {
    var t := ['0'] + s;
    if s == [] {
      assert t[..0] == [];
    } else {
      assert t[..|t| - 1] == ['0'] + s[..|s| - 1];
      ParseLeadingZero(s[..|s| - 1]);
    }
  }

  /** `String(v).padStart(2, '0')`: at least two characters, with a leading
      zero exactly below ten. */
  function PadTwo(v: nat): (s: string)
    ensures |s| >= 2 && AllDigits(s)
    ensures v < 10 ==> s == ['0', DigitChar(v)]
    ensures v >= 10 ==> s == Decimal(v)
  {
    PadStart(Decimal(v), 2, '0')
  }

  /** The padded cell still reads as the number it shows. */
  lemma PadTwoReadsBack(v: nat)
    ensures ParseDecimal(PadTwo(v)) == v
  {
    ParseDecimalOfDecimal(v);
    if v < 10 {
      ParseLeadingZero(Decimal(v));
    }
  }

  /** The hero section's state. `targetDate` is the opening time in
      milliseconds since the epoch. */
  class HeroState {
    const targetDate: int
    var countdown: Countdown
    var ticking: bool
    var scrollY: real

    ghost predicate Valid()
      reads this
    {
      Normal(countdown)
    }

    /** Mount: the countdown shows zeros and no frame is pending. */
    constructor (targetDate: int)
      ensures Valid() && this.targetDate == targetDate
      ensures countdown == Zero && !ticking && scrollY == 0.0
    {
      this.targetDate := targetDate;
      countdown := Zero;
      ticking := false;
      scrollY := 0.0;
    }

    /** The interval callback at wall-clock time `now`. */
    method CountdownTick(now: int)
      requires Valid()
      modifies this`countdown
      ensures Valid()
      ensures countdown == CountdownAfter(old(countdown), targetDate - now)
    {
      var distance := targetDate - now;
      if distance > 0 {
        countdown := Countdown(
          distance / MsPerDay,
          (distance % MsPerDay) / MsPerHour,
          (distance % MsPerHour) / MsPerMinute,
          (distance % MsPerMinute) / MsPerSecond);
      }
    }

    /** The four cells, days first: each is its part padded to two digits
        (a leading zero exactly below 10) and reads back as that part. */
    function Display(): (cells: seq<string>)
      requires Valid()
      reads this
      ensures |cells| == 4
      ensures cells[0] == PadTwo(countdown.days) && AllDigits(cells[0]) && ParseDecimal(cells[0]) == countdown.days
      ensures cells[1] == PadTwo(countdown.hours) && AllDigits(cells[1]) && ParseDecimal(cells[1]) == countdown.hours
      ensures cells[2] == PadTwo(countdown.minutes) && AllDigits(cells[2]) && ParseDecimal(cells[2]) == countdown.minutes
      ensures cells[3] == PadTwo(countdown.seconds) && AllDigits(cells[3]) && ParseDecimal(cells[3]) == countdown.seconds
    {
      var c := countdown;
      PadTwoReadsBack(c.days);
      PadTwoReadsBack(c.hours);
      PadTwoReadsBack(c.minutes);
      PadTwoReadsBack(c.seconds);
      [PadTwo(c.days), PadTwo(c.hours), PadTwo(c.minutes), PadTwo(c.seconds)]
    }

    /** A scroll event: schedules a frame only when none is pending. */
    method HandleScroll() returns (scheduled: bool)
      modifies this`ticking
      ensures scheduled == !old(ticking)
      ensures ticking
    {
      scheduled := !ticking;
      if scheduled {
        ticking := true;
      }
    }

    /** The scheduled frame: records the scroll offset and clears the flag. */
    method AnimationFrame(windowScrollY: real)
      modifies this`scrollY, this`ticking
      ensures scrollY == windowScrollY && !ticking
    {
      scrollY := windowScrollY;
      ticking := false;
    }
  }
}
