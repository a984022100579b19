/** The relative time of an operation: nested rounding to minutes, hours and days. */
module RelativeTime {
  import opened Prelude

  datatype Unit = Minute | Hour | Day
  {
    function Millis(): int { if Minute? then MINUTE else if Hour? then HOUR else DAY }
  }

  const MINUTE := 60_000
  const HOUR := 60 * MINUTE
  const DAY := 24 * HOUR

  /** The shown amount, or the text itself when it is not a date. */
  datatype Shown = Unchanged(text: string) | Amount(n: int, unit: Unit)

  function Abs(x: int): nat { if x < 0 then -x else x }

  /** Math.round(n / d): to the nearest integer, ties towards positive infinity. */
  function Round(n: int, d: int): (r: int)
    requires d > 0
    ensures -d <= 2 * (n - r * d) < d
  {
    (2 * n + d) / (2 * d)
  }

  function Minutes(diff: int): int { Round(diff, MINUTE) }

  function Hours(diff: int): int { Round(Minutes(diff), 60) }

  function Days(diff: int): int { Round(Hours(diff), 24) }

  function Choose(minutes: int, hours: int, days: int): Shown {
    if Abs(minutes) < 60 then Amount(minutes, Minute)
    else if Abs(hours) < 24 then Amount(hours, Hour)
    else Amount(days, Day)
  }

  /** relativeTime, with the parsed date and the clock in milliseconds. */
  function RelativeTime(value: string, date: Option<int>, now: int): Shown {
    if date.None? then Unchanged(value)
    else
      var diff := date.value - now;
      Choose(Minutes(diff), Hours(diff), Days(diff))
  }

  /** What an amount stands for. */
  function Meaning(s: Shown): int
    requires s.Amount?
  {
    s.n * s.unit.Millis()
  }

  /** The amount has the sign of the true difference or is zero, and each unit keeps to its range. */
  lemma SignAndRange(value: string, date: int, now: int)
    ensures var s := RelativeTime(value, Some(date), now);
      && s.Amount?
      && (s.n > 0 ==> date > now) && (s.n < 0 ==> date < now)
      && (s.unit.Minute? ==> Abs(s.n) < 60)
      && (s.unit.Hour? ==> 1 <= Abs(s.n) <= 23)
      && (s.unit.Day? ==> Abs(s.n) >= 1)
  {}

  /** The unit changes at 59.5 minutes and at 23 hours 29.5 minutes, where the rounded amounts reach 60 and 24; at a
      negative tie the hour, whose own tie rounds up, lasts one minute longer. */
  lemma UnitChangesAt(value: string, date: int, now: int)
    ensures var (s, diff) := (RelativeTime(value, Some(date), now), 2 * (date - now));
      && (s == Amount(s.n, Minute) <==> -119 * MINUTE <= diff < 119 * MINUTE)
      && (s == Amount(s.n, Hour) <==> -2821 * MINUTE <= diff < 2819 * MINUTE && !(-119 * MINUTE <= diff < 119 * MINUTE))
      && RelativeTime(value, None, now) == Unchanged(value)
  {}

  /** The shown time is off by at most 30 s for minutes, 30.5 min for hours and 12 h 30.5 min for days. */
  lemma ErrorBound(value: string, date: int, now: int)
    ensures var s := RelativeTime(value, Some(date), now);
      s.Amount? &&
      Abs(Meaning(s) - (date - now)) <= match s.unit
                                        case Minute => MINUTE / 2
                                        case Hour => HOUR / 2 + MINUTE / 2
                                        case Day => DAY / 2 + HOUR / 2 + MINUTE / 2
  {}

  /** The bounds are met, each by a negative tie. */
  lemma ErrorBoundIsTight()
    ensures Meaning(RelativeTime("", Some(-30_000), 0)) - -30_000 == MINUTE / 2
    ensures Meaning(RelativeTime("", Some(-90 * MINUTE - 30_000), 0)) - (-90 * MINUTE - 30_000) == HOUR / 2 + MINUTE / 2
    ensures Meaning(RelativeTime("", Some(-36 * HOUR - 30 * MINUTE - 30_000), 0)) - (-36 * HOUR - 30 * MINUTE - 30_000)
         == DAY / 2 + HOUR / 2 + MINUTE / 2
  {
    hide Round;
    assert Minutes(-30_000) == 0;
    assert Minutes(-5_430_000) == -90 && Hours(-5_430_000) == -1;
    assert Minutes(-131_430_000) == -2190 && Hours(-131_430_000) == -36 && Days(-131_430_000) == -1;
  }

  lemma {:induction false} ProductsAreOrdered(a: int, b: int, d: int)
    requires a < b && d > 0
    ensures a * d + d <= b * d
    decreases b - a
  {
    assert (b - 1) * d + d == b * d;
    if a < b - 1 { ProductsAreOrdered(a, b - 1, d); }
  }

  lemma RoundIsMonotone(n: int, m: int, d: int)
    requires n <= m && d > 0
    ensures Round(n, d) <= Round(m, d)
  {
    hide Round;
    if Round(n, d) > Round(m, d) { ProductsAreOrdered(Round(m, d), Round(n, d), d); }
  }

  /** Each rounding is within half a unit. */
  lemma Roundings(diff: int)
    ensures -30_000 <= diff - 60_000 * Minutes(diff) < 30_000
    ensures -30 <= Minutes(diff) - 60 * Hours(diff) < 30
    ensures -12 <= Hours(diff) - 24 * Days(diff) < 12
  {
    hide Round;
  }

  lemma ChoiceIsMonotone(m: int, h: int, d: int, m': int, h': int, d': int)
    requires m <= m' && h <= h' && d <= d'
    requires -30 <= m - 60 * h < 30 && -12 <= h - 24 * d < 12
    requires -30 <= m' - 60 * h' < 30 && -12 <= h' - 24 * d' < 12
    ensures Meaning(Choose(m, h, d)) <= Meaning(Choose(m', h', d'))
  {
    assert Meaning(Choose(m, h, d)) ==
      if Abs(m) < 60 then 60_000 * m else if Abs(h) < 24 then 3_600_000 * h else 86_400_000 * d;
    assert Meaning(Choose(m', h', d')) ==
      if Abs(m') < 60 then 60_000 * m' else if Abs(h') < 24 then 3_600_000 * h' else 86_400_000 * d';
    hide Meaning, Choose;
  }

  /** A later date never shows as an earlier time, across all unit changes. */
  lemma Monotone(value: string, date: int, later: int, now: int)
    requires date <= later
    ensures var (a, b) := (RelativeTime(value, Some(date), now), RelativeTime(value, Some(later), now));
      a.Amount? && b.Amount? && Meaning(a) <= Meaning(b)
  {
    var x, y := date - now, later - now;
    RoundIsMonotone(x, y, MINUTE);
    RoundIsMonotone(Minutes(x), Minutes(y), 60);
    RoundIsMonotone(Hours(x), Hours(y), 24);
    Roundings(x);
    Roundings(y);
    ChoiceIsMonotone(Minutes(x), Hours(x), Days(x), Minutes(y), Hours(y), Days(y));
    hide Minutes, Hours, Days, Round, Choose, Meaning;
  }
}
