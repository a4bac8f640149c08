/** Menu-bar formatting helpers (app/Sources/CCostBar/Formatters.swift): the
    token counts, the time left until a rate-limit reset, the text progress
    bar and the projected weekly usage. `Double` is modelled as `real`; the
    clock reading `timeIntervalSinceNow` is a parameter. */
module BarFormatters {
  import opened Wrappers
  import opened Strings
  import Formatter

  // ---------------------------------------------------------------------
  // Token counts.

  /** formatTokens: thousands and millions with one decimal ("%.1f", the
      parameter) and a unit letter; smaller counts as they are. Unlike the
      command line's formatter there is no billions unit. */
  function FormatTokens(count: int, oneDecimal: real -> string): (r: string)
    ensures count < 1000 ==> r == IntToString(count)
    ensures 1000 <= count < 1000000 ==> r == oneDecimal(count as real / 1000.0) + "K"
    ensures 1000000 <= count ==> r == oneDecimal(count as real / 1000000.0) + "M"
  {
    if count < 1000 then IntToString(count)
    else if count < 1000000 then oneDecimal(count as real / 1000.0) + "K"
    else oneDecimal(count as real / 1000000.0) + "M"
  }

  /** Counts from a thousand up carry a unit letter, K or M, and the count is
      shown scaled below 1000 K; counts below it are plain decimal digits
      (or a minus sign and digits). */
  lemma TokensUnits(count: int, oneDecimal: real -> string)
    ensures count >= 1000 ==> HasSuffix(FormatTokens(count, oneDecimal), "K") || HasSuffix(FormatTokens(count, oneDecimal), "M")
    ensures 1000 <= count < 1000000 ==> HasSuffix(FormatTokens(count, oneDecimal), "K") && count as real / 1000.0 < 1000.0
    ensures 0 <= count < 1000 ==> forall i :: 0 <= i < |FormatTokens(count, oneDecimal)| ==> '0' <= FormatTokens(count, oneDecimal)[i] <= '9'
  {
    var r := FormatTokens(count, oneDecimal);
    if count >= 1000 {
      var scaled := if count < 1000000 then count as real / 1000.0 else count as real / 1000000.0;
      var unit := if count < 1000000 then "K" else "M";
      assert r == oneDecimal(scaled) + unit;
      assert r[|r| - 1..] == unit;
    }
  }

  /** The menu bar and the command line print token counts alike below a
      billion; from a billion up the command line switches to "B" while the
      menu bar stays with "M". */
  lemma TokensAgreeWithTable(count: int, f: Formatter.Printf)
    ensures count < 1000000000 ==> FormatTokens(count, f.oneDecimal) == Formatter.FormatTokens(count, f)
    ensures count >= 1000000000 ==>
      HasSuffix(FormatTokens(count, f.oneDecimal), "M") && HasSuffix(Formatter.FormatTokens(count, f), "B")
  {
    if count >= 1000000000 {
      var r := FormatTokens(count, f.oneDecimal);
      var t := Formatter.FormatTokens(count, f);
      assert r[|r| - 1..] == "M";
      assert t[|t| - 1..] == "B";
    }
  }

  // ---------------------------------------------------------------------
  // Real to integer conversion.

  /** `Int(x)` for a `Double`: the integer part, rounding toward zero. */
  function Truncate(x: real): (r: int)
    ensures x >= 0.0 ==> r as real <= x < r as real + 1.0
    ensures x < 0.0 ==> r as real - 1.0 < x <= r as real
  {
    if x >= 0.0 then x.Floor else -((-x).Floor)
  }

  // ---------------------------------------------------------------------
  // Time remaining.

  const SecondsPerDay := 86400
  const SecondsPerHour := 3600
  const SecondsPerMinute := 60

  datatype TimeParts = TimeParts(days: int, hours: int, minutes: int)

  lemma DivModUnique(a: int, b: int, q: int, r: int)
    requires b > 0 && 0 <= r < b && a == b * q + r
    ensures a / b == q && a % b == r
  {
    var q', r' := a / b, a % b;
    assert b * (q - q') == r' - r;
    if q > q' {
      MulAtLeast(b, q - q');
    } else if q < q' {
      MulAtLeast(b, q' - q);
    }
  }

  lemma MulAtLeast(b: int, k: int)
    requires b > 0 && k >= 1
    ensures b * k >= b
  {
  }

  /** The days, hours of the day and minutes of the hour in `seconds`,
      computed as the source does with `/` and `%`. */
  function Breakdown(seconds: int): (p: TimeParts)
    requires seconds >= 0
    ensures p.days >= 0 && 0 <= p.hours < 24 && 0 <= p.minutes < 60
    ensures var whole := p.days * SecondsPerDay + p.hours * SecondsPerHour + p.minutes * SecondsPerMinute;
            whole <= seconds < whole + SecondsPerMinute
  {
    var d := seconds / SecondsPerDay;
    var inDay := seconds % SecondsPerDay;
    var h := inDay / SecondsPerHour;
    var inHour := inDay % SecondsPerHour;
    assert seconds == SecondsPerHour * (24 * d + h) + inHour;
    DivModUnique(seconds, SecondsPerHour, 24 * d + h, inHour);
    TimeParts(d, h, (seconds % SecondsPerHour) / SecondsPerMinute)
  }

  /** The parts are the only ones with these bounds: days, hours < 24 and
      minutes < 60 that add up to `seconds` to within a minute. */
  lemma BreakdownUnique(seconds: int, d: int, h: int, m: int)
    requires seconds >= 0 && d >= 0 && 0 <= h < 24 && 0 <= m < 60
    requires d * SecondsPerDay + h * SecondsPerHour + m * SecondsPerMinute <= seconds
    requires seconds < d * SecondsPerDay + h * SecondsPerHour + m * SecondsPerMinute + SecondsPerMinute
    ensures Breakdown(seconds) == TimeParts(d, h, m)
  {
    var rest := seconds - (d * SecondsPerDay + h * SecondsPerHour + m * SecondsPerMinute);
    DivModUnique(seconds, SecondsPerDay, d, h * SecondsPerHour + m * SecondsPerMinute + rest);
    DivModUnique(seconds % SecondsPerDay, SecondsPerHour, h, m * SecondsPerMinute + rest);
    assert seconds == SecondsPerHour * (24 * d + h) + (m * SecondsPerMinute + rest);
    DivModUnique(seconds, SecondsPerHour, 24 * d + h, m * SecondsPerMinute + rest);
    DivModUnique(seconds % SecondsPerHour, SecondsPerMinute, m, rest);
  }

  /** formatTimeRemaining, given the seconds until the reset: "Dd Hh" when at
      least a day is left, else "Hh Mm" when at least an hour is, else "Mm";
      a reset in the past counts as no time left. */
  function FormatTimeRemaining(secondsUntil: real): (r: string)
    ensures secondsUntil >= SecondsPerDay as real ==> HasSuffix(r, "h") && 'd' in r
    ensures SecondsPerHour as real <= secondsUntil < SecondsPerDay as real ==> HasSuffix(r, "m") && 'h' in r && 'd' !in r
    ensures secondsUntil < SecondsPerHour as real ==> HasSuffix(r, "m") && 'h' !in r && 'd' !in r
  {
    var seconds := if Truncate(secondsUntil) >= 0 then Truncate(secondsUntil) else 0;
    BreakdownScale(seconds);
    TimeText(Breakdown(seconds))
  }

  /** The days are positive from a day on; short of a day, the hours are
      positive from an hour on. */
  lemma BreakdownScale(seconds: int)
    requires seconds >= 0
    ensures Breakdown(seconds).days > 0 <==> seconds >= SecondsPerDay
    ensures Breakdown(seconds).days == 0 ==> (Breakdown(seconds).hours > 0 <==> seconds >= SecondsPerHour)
  {
  }

  /** The text of the parts: "Dd Hh", "Hh Mm" or "Mm". */
  function TimeText(p: TimeParts): (r: string)
    requires p.days >= 0 && p.hours >= 0 && p.minutes >= 0
    ensures p.days > 0 ==> HasSuffix(r, "h") && 'd' in r
    ensures p.days == 0 && p.hours > 0 ==> HasSuffix(r, "m") && 'h' in r && 'd' !in r
    ensures p.days == 0 && p.hours == 0 ==> HasSuffix(r, "m") && 'h' !in r && 'd' !in r
  {
    var d, h, m := IntToString(p.days), IntToString(p.hours), IntToString(p.minutes);
    if p.days > 0 then
      var r := d + "d " + h + "h";
      assert r[|d|] == 'd';
      r
    else if p.hours > 0 then
      DigitsOnly(p.hours);
      DigitsOnly(p.minutes);
      var r := h + "h " + m + "m";
      assert r[|h|] == 'h';
      assert forall i :: 0 <= i < |r| ==> r[i] != 'd';
      r
    else
      DigitsOnly(p.minutes);
      var r := m + "m";
      assert forall i :: 0 <= i < |r| ==> r[i] != 'd' && r[i] != 'h';
      r
  }

  lemma DigitsOnly(n: nat)
    ensures forall i :: 0 <= i < |IntToString(n)| ==> '0' <= IntToString(n)[i] <= '9'
  {
  }

  /** Less than a second left, or a reset already past, shows "0m". */
  lemma TimeRemainingPast(secondsUntil: real)
    requires secondsUntil < 1.0
    ensures FormatTimeRemaining(secondsUntil) == "0m"
  {
    var seconds := if Truncate(secondsUntil) >= 0 then Truncate(secondsUntil) else 0;
    assert seconds == 0;
    BreakdownUnique(0, 0, 0, 0);
  }

  /** Under an hour left shows the whole minutes. */
  lemma TimeRemainingMinutes(secondsUntil: real, m: int)
    requires 0 <= m < 60
    requires (m * SecondsPerMinute) as real <= secondsUntil < (m * SecondsPerMinute + SecondsPerMinute) as real
    ensures FormatTimeRemaining(secondsUntil) == IntToString(m) + "m"
  {
    var seconds := Truncate(secondsUntil);
    assert m * SecondsPerMinute <= seconds < m * SecondsPerMinute + SecondsPerMinute;
    BreakdownUnique(seconds, 0, 0, m);
  }

  /** From an hour to a day left shows the hours and the minutes past them. */
  lemma TimeRemainingHours(secondsUntil: real, h: int, m: int)
    requires 1 <= h < 24 && 0 <= m < 60
    requires (h * SecondsPerHour + m * SecondsPerMinute) as real <= secondsUntil
    requires secondsUntil < (h * SecondsPerHour + m * SecondsPerMinute + SecondsPerMinute) as real
    ensures FormatTimeRemaining(secondsUntil) == IntToString(h) + "h " + IntToString(m) + "m"
  {
    var seconds := Truncate(secondsUntil);
    assert h * SecondsPerHour + m * SecondsPerMinute <= seconds < h * SecondsPerHour + m * SecondsPerMinute + SecondsPerMinute;
    BreakdownUnique(seconds, 0, h, m);
  }

  /** A day or more left shows the days and the hours past them; the minutes
      are dropped. */
  lemma TimeRemainingDays(secondsUntil: real, d: int, h: int)
    requires d >= 1 && 0 <= h < 24
    requires (d * SecondsPerDay + h * SecondsPerHour) as real <= secondsUntil
    requires secondsUntil < (d * SecondsPerDay + h * SecondsPerHour + SecondsPerHour) as real
    ensures FormatTimeRemaining(secondsUntil) == IntToString(d) + "d " + IntToString(h) + "h"
  {
    var seconds := Truncate(secondsUntil);
    var base := d * SecondsPerDay + h * SecondsPerHour;
    assert base <= seconds < base + SecondsPerHour;
    var m := (seconds - base) / SecondsPerMinute;
    DivModUnique(seconds - base, SecondsPerMinute, m, (seconds - base) % SecondsPerMinute);
    BreakdownUnique(seconds, d, h, m);
  }

  // ---------------------------------------------------------------------
  // Progress bar.

  const FullBlock := '█'
  const LightShade := '░'

  /** The width a caller of progressBar gets when it gives none. */
  const DefaultWidth: nat := 20

  /** The number of full cells of a bar of `width` cells at `percent`: the
      integer part of the filled share, clamped to [0, width]. */
  function FilledCells(percent: real, width: int): (c: int)
    requires width >= 0
    ensures 0 <= c <= width
    ensures percent <= 0.0 ==> c == 0
    ensures percent >= 100.0 ==> c == width
    ensures 0.0 <= percent <= 100.0 ==> c as real <= percent / 100.0 * width as real < c as real + 1.0
  {
    var filled := Truncate((percent / 100.0) * width as real);
    if filled < 0 then 0 else if filled > width then width else filled
  }

  /** progressBar: `width` cells (`DefaultWidth` when the caller gives none),
      the first `FilledCells` full and the rest light. A negative width is a runtime error in the source (a negative
      repeat count). */
  function ProgressBar(percent: real, width: int): (r: string)
    requires width >= 0
    ensures |r| == width
    ensures forall i :: 0 <= i < width ==> (r[i] == FullBlock <==> i < FilledCells(percent, width))
    ensures forall i :: 0 <= i < width ==> r[i] == FullBlock || r[i] == LightShade
  {
    var clamped := FilledCells(percent, width);
    var r := Repeat(FullBlock, clamped) + Repeat(LightShade, width - clamped);
    assert forall i :: clamped <= i < width ==> r[i] == Repeat(LightShade, width - clamped)[i - clamped];
    r
  }

  /** A higher percentage never fills fewer cells. */
  lemma FilledMonotonic(p1: real, p2: real, width: int)
    requires width >= 0 && p1 <= p2
    ensures FilledCells(p1, width) <= FilledCells(p2, width)
  {
    var x1 := (p1 / 100.0) * width as real;
    var x2 := (p2 / 100.0) * width as real;
    assert x1 <= x2;
    TruncateMonotonic(x1, x2);
  }

  lemma TruncateMonotonic(x1: real, x2: real)
    requires x1 <= x2
    ensures Truncate(x1) <= Truncate(x2)
  {
  }

  // ---------------------------------------------------------------------
  // Projected usage.

  /** The length of the weekly rate-limit window in seconds. */
  const WindowSeconds: real := 7.0 * 24.0 * 3600.0
  const MinElapsed: real := 3600.0

  /** projectedUsage, given the seconds until the window resets: the weekly
      utilization extrapolated linearly from the elapsed part of the window to
      the whole window; none when the reset is not in the future or at most an
      hour of the window has elapsed. */
  function ProjectedUsage(utilization: real, remaining: real): (r: Option<real>)
    ensures r.Some? <==> 0.0 < remaining && WindowSeconds - remaining > MinElapsed
    ensures r.Some? ==> r.value * (WindowSeconds - remaining) == utilization * WindowSeconds
  {
    if remaining <= 0.0 then None
    else
      var elapsed := WindowSeconds - remaining;
      if elapsed <= MinElapsed then None
      else Some((utilization / elapsed) * WindowSeconds)
  }

  /** With non-negative usage so far, the projection is at least the current
      usage, since less than the whole window has elapsed. */
  lemma ProjectionAtLeastCurrent(utilization: real, remaining: real)
    requires utilization >= 0.0
    requires ProjectedUsage(utilization, remaining).Some?
    ensures ProjectedUsage(utilization, remaining).value >= utilization
  {
    var elapsed := WindowSeconds - remaining;
    var v := ProjectedUsage(utilization, remaining).value;
    assert v * elapsed == utilization * WindowSeconds;
    assert 0.0 < elapsed < WindowSeconds;
    if v < utilization {
      assert v * elapsed <= utilization * elapsed;
      assert utilization * elapsed <= utilization * WindowSeconds;
    }
  }
}
