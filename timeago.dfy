/**
 * `timeago`: how long ago a timestamp was, in words. The elapsed time
 * falls into one bucket (seconds, minutes, hours, days, 30-day months or
 * 365-day years); the count is the elapsed time divided by the bucket's
 * unit, rounded down. Times are integer milliseconds and the current time
 * is a parameter.
 */
module TimeAgo {

  const SECOND: int := 1000
  const MINUTE: int := 60 * SECOND
  const HOUR: int := 3600 * SECOND
  const DAY: int := 24 * HOUR
  const MONTH: int := 30 * DAY
  const YEAR: int := 365 * DAY

  datatype Unit = Seconds | Minutes | Hours | Days | Months | Years

  /** The outcome of the classification: "just now", or a count of some unit. */
  datatype Ago = JustNow | Ago(count: nat, unit: Unit)

  /** Length of one unit in milliseconds. */
  function Size(u: Unit): (r: int)
    ensures r > 0
  {
    match u
    case Seconds => SECOND
    case Minutes => MINUTE
    case Hours => HOUR
    case Days => DAY
    case Months => MONTH
    case Years => YEAR
  }

  /** Elapsed time where the bucket of `u` starts. */
  function Lower(u: Unit): int {
    match u
    case Seconds => 2 * SECOND
    case Minutes => MINUTE
    case Hours => HOUR
    case Days => DAY
    case Months => MONTH
    case Years => YEAR
  }

  /** Position of a unit in increasing order. */
  function Rank(u: Unit): nat {
    match u
    case Seconds => 0
    case Minutes => 1
    case Hours => 2
    case Days => 3
    case Months => 4
    case Years => 5
  }

  /** The branches of `timeago`, tried in increasing order of elapsed time. */
  function Classify(now: int, value: int): (r: Ago)
    ensures r.Ago? ==> r.count >= 1
  {
    var elapsed := now - value;
    if elapsed < 2 * SECOND then JustNow
    else if elapsed < MINUTE then Ago(elapsed / SECOND, Seconds)
    else if elapsed < HOUR then Ago(elapsed / MINUTE, Minutes)
    else if elapsed < DAY then Ago(elapsed / HOUR, Hours)
    else if elapsed < MONTH then Ago(elapsed / DAY, Days)
    else if elapsed < YEAR then Ago(elapsed / MONTH, Months)
    else Ago(elapsed / YEAR, Years)
  }

  function DigitChar(d: nat): (c: char)
    requires d < 10
    ensures '0' <= c <= '9'
  {
    ('0' as int + d) as char
  }

  /** Decimal notation of a whole number, as JavaScript prints it. */
  function Digits(n: nat): (s: string)
    ensures |s| >= 1
    ensures forall i :: 0 <= i < |s| ==> '0' <= s[i] <= '9'
    ensures s[0] == '0' ==> n == 0
  {
    if n < 10 then [DigitChar(n)] else Digits(n / 10) + [DigitChar(n % 10)]
  }

  /** Reading decimal notation back. */
  function Value(s: string): nat
    requires forall i :: 0 <= i < |s| ==> '0' <= s[i] <= '9'
  {
    if s == [] then 0 else Value(s[..|s| - 1]) * 10 + (s[|s| - 1] as int - '0' as int)
  }

  function Plural(n: nat): string {
    if n > 1 then "s" else ""
  }

  /** What follows the count: the unit, with a plural "s" for days, months and years above one. */
  function Suffix(n: nat, u: Unit): (s: string)
    ensures |s| >= 5 && !('0' <= s[0] <= '9')
  {
    match u
    case Seconds => "s ago"
    case Minutes => "min ago"
    case Hours => "h ago"
    case Days => " day" + Plural(n) + " ago"
    case Months => " month" + Plural(n) + " ago"
    case Years => " year" + Plural(n) + " ago"
  }

  /** The sentence for each outcome. */
  function Render(a: Ago): (s: string)
    ensures |s| > 0 && (a.Ago? <==> '0' <= s[0] <= '9')
  {
    match a
    case JustNow => "just now"
    case Ago(n, u) => Digits(n) + Suffix(n, u)
  }

  function Timeago(now: int, value: int): (s: string)
    ensures |s| > 0 && ('0' <= s[0] <= '9' <==> now - value >= 2 * SECOND)
  {
    Render(Classify(now, value))
  }

  // ---------------------------------------------------------------------
  // Properties

  /** "just now" exactly for less than two seconds, including timestamps in the future. */
  lemma JustNowIff(now: int, value: int)
    ensures Classify(now, value) == JustNow <==> now - value < 2 * SECOND
    ensures Timeago(now, value) == "just now" <==> now - value < 2 * SECOND
  {
    var a := Classify(now, value);
    if a.Ago? {
      var s := Render(a);
      assert s[0] != 'j';
    }
  }

  /**
   * Every other outcome counts whole units of its bucket: the elapsed
   * time lies in the bucket's range, the next unit up has not been
   * reached, and the count is the elapsed time in units, rounded down.
   */
  lemma BucketBounds(now: int, value: int)
    requires Classify(now, value).Ago?
    ensures var a, elapsed := Classify(now, value), now - value;
            Lower(a.unit) <= elapsed &&
            (a.unit != Years ==> elapsed < Lower(Next(a.unit))) &&
            a.count * Size(a.unit) <= elapsed < (a.count + 1) * Size(a.unit)
  {
    var a, elapsed := Classify(now, value), now - value;
    FloorDivision(elapsed, Size(a.unit));
  }

  function Next(u: Unit): Unit
    requires u != Years
  {
    match u
    case Seconds => Minutes
    case Minutes => Hours
    case Hours => Days
    case Days => Months
    case Months => Years
  }

  lemma FloorDivision(n: int, d: int)
    requires n >= 0 && d > 0
    ensures (n / d) * d <= n < (n / d + 1) * d
  {
  }

  /** The counts each bucket can show. */
  lemma CountRanges(now: int, value: int)
    requires Classify(now, value).Ago?
    ensures var a := Classify(now, value);
            match a.unit
            case Seconds => 2 <= a.count <= 59
            case Minutes => 1 <= a.count <= 59
            case Hours => 1 <= a.count <= 23
            case Days => 1 <= a.count <= 29
            case Months => 1 <= a.count <= 12
            case Years => 1 <= a.count
  {
    BucketBounds(now, value);
  }

  /** A timestamp further in the past never shows a smaller unit. */
  lemma UnitMonotone(now: int, v1: int, v2: int)
    requires v2 <= v1
    requires Classify(now, v1).Ago?
    ensures Classify(now, v2).Ago?
    ensures Rank(Classify(now, v1).unit) <= Rank(Classify(now, v2).unit)
  {
  }

  /** Within a bucket the count never decreases as the timestamp moves into the past. */
  lemma CountMonotone(now: int, v1: int, v2: int)
    requires v2 <= v1
    requires Classify(now, v1).Ago? && Classify(now, v2).Ago?
    requires Classify(now, v1).unit == Classify(now, v2).unit
    ensures Classify(now, v1).count <= Classify(now, v2).count
  {
    var u := Classify(now, v1).unit;
    BucketBounds(now, v1);
    BucketBounds(now, v2);
    DivisionMonotone(now - v1, now - v2, Size(u));
  }

  lemma DivisionMonotone(a: int, b: int, d: int)
    requires 0 <= a <= b && d > 0
    ensures a / d <= b / d
  {
    var qa, qb := a / d, b / d;
    FloorDivision(a, d);
    FloorDivision(b, d);
    MultipleBounds(qa - qb, d);
    assert (qa - qb) * d == qa * d - qb * d;
    assert (qb + 1) * d == qb * d + d;
  }

  /** Going back a whole number of units from `now` inside a bucket gives that count of that unit. */
  lemma ClassifyOfUnits(now: int, n: nat, u: Unit)
    requires Lower(u) <= n * Size(u)
    requires u != Years ==> n * Size(u) < Lower(Next(u))
    ensures Classify(now, now - n * Size(u)) == Ago(n, u)
  {
    assert now - (now - n * Size(u)) == n * Size(u);
    DivideExact(n, Size(u));
  }

  lemma DivideExact(n: nat, d: int)
    requires d > 0
    ensures (n * d) / d == n
  {
    var q, r := (n * d) / d, (n * d) % d;
    assert (n - q) * d == r;
    MultipleBounds(n - q, d);
  }

  lemma MultipleBounds(k: int, d: int)
    requires d > 0
    ensures k >= 1 ==> k * d >= d
    ensures k <= -1 ==> k * d <= -d
  {
  }

  /** Decimal notation reads back as the number it was written from. */
  lemma {:induction false} DigitsRoundTrip(n: nat)
    ensures Value(Digits(n)) == n
  {
    if n >= 10 {
      DigitsRoundTrip(n / 10);
      var s := Digits(n);
      assert s[..|s| - 1] == Digits(n / 10);
    }
  }

  /** Days, months and years take a plural "s" exactly when the count exceeds one. */
  lemma PluralMarker(n: nat, u: Unit)
    requires u == Days || u == Months || u == Years
    ensures var s := Render(Ago(n, u));
            |s| >= 5 && (s[|s| - 5..] == "s ago" <==> n > 1)
  {
    var s := Render(Ago(n, u));
    var word := if u == Days then " day" else if u == Months then " month" else " year";
    assert s == Digits(n) + word + Plural(n) + " ago";
    if n <= 1 {
      assert s[|s| - 5] == word[|word| - 1];
    }
  }

  /** Different outcomes read differently: the sentence determines the count and the unit. */
  lemma RenderInjective(a: Ago, b: Ago)
    requires Render(a) == Render(b)
    ensures a == b
  {
    if a.Ago? && b.Ago? {
      DigitPrefix(Digits(a.count), Suffix(a.count, a.unit), Digits(b.count), Suffix(b.count, b.unit));
      DigitsRoundTrip(a.count);
      DigitsRoundTrip(b.count);
      SuffixDeterminesUnit(a.count, a.unit, b.unit);
    }
  }

  /** Two timestamps give the same sentence only when they fall in the same bucket with the same count. */
  lemma TimeagoDistinguishes(now: int, v1: int, v2: int)
    requires Timeago(now, v1) == Timeago(now, v2)
    ensures Classify(now, v1) == Classify(now, v2)
  {
    RenderInjective(Classify(now, v1), Classify(now, v2));
  }

  /** A run of digits followed by a non-digit splits in one way only. */
  lemma DigitPrefix(d1: string, t1: string, d2: string, t2: string)
    requires forall i :: 0 <= i < |d1| ==> '0' <= d1[i] <= '9'
    requires forall i :: 0 <= i < |d2| ==> '0' <= d2[i] <= '9'
    requires |t1| > 0 && !('0' <= t1[0] <= '9') && |t2| > 0 && !('0' <= t2[0] <= '9')
    requires d1 + t1 == d2 + t2
    ensures d1 == d2 && t1 == t2
  {
    var k := if |d1| < |d2| then |d1| else |d2|;
    CharOfConcat(d1, t1, k);
    CharOfConcat(d2, t2, k);
    assert d1 == (d1 + t1)[..|d1|];
    assert t1 == (d1 + t1)[|d1|..];
  }

  lemma CharOfConcat(d: string, t: string, k: nat)
    requires k < |d| + |t|
    ensures (d + t)[k] == if k < |d| then d[k] else t[k - |d|]
  {
  }

  lemma SuffixDeterminesUnit(n: nat, u: Unit, v: Unit)
    requires Suffix(n, u) == Suffix(n, v)
    ensures u == v
  {
    var s := Suffix(n, u);
    assert s[0] == Suffix(n, v)[0];
    assert s[1] == Suffix(n, v)[1];
  }
}
