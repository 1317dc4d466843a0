/**
  Times as text: RFC 3339 in UTC with and without a fraction of a second, and the
  order in which such texts sort.  Times are nanoseconds from the start of 1970.
 */
module Timestamps {
  const SECOND := 1_000_000_000

  // ---- Sorting text ----

  /** Byte order on text. */
  predicate Before(a: string, b: string) {
    if b == "" then false
    else if a == "" then true
    else if a[0] != b[0] then a[0] < b[0]
    else Before(a[1..], b[1..])
  }

  lemma {:induction false} SamePrefix(p: string, a: string, b: string)
    ensures Before(p + a, p + b) == Before(a, b)
  {
    if p == "" {
      assert p + a == a && p + b == b;
    } else {
      assert (p + a)[1..] == p[1..] + a && (p + b)[1..] == p[1..] + b;
      SamePrefix(p[1..], a, b);
    }
  }

  lemma {:induction false} PrefixDecides(p: string, q: string, a: string, b: string)
    requires |p| == |q| && Before(p, q)
    ensures Before(p + a, q + b) && !Before(q + b, p + a)
  {
    if p[0] == q[0] {
      assert (p + a)[1..] == p[1..] + a && (q + b)[1..] == q[1..] + b;
      PrefixDecides(p[1..], q[1..], a, b);
    }
  }

  // ---- Numbers of a fixed width ----

  function Digit(n: nat): char { ('0' as int + n % 10) as char }

  function Padded(n: nat, width: nat): (s: string)
    ensures |s| == width
  {
    if width == 0 then "" else Padded(n / 10, width - 1) + [Digit(n)]
  }

  function Power(width: nat): nat { if width == 0 then 1 else 10 * Power(width - 1) }

  lemma {:induction false} PaddedSorts(a: nat, b: nat, width: nat)
    requires a < b < Power(width)
    ensures Before(Padded(a, width), Padded(b, width))
  {
    if a / 10 == b / 10 {
      SamePrefix(Padded(a / 10, width - 1), [Digit(a)], [Digit(b)]);
    } else {
      PaddedSorts(a / 10, b / 10, width - 1);
      PrefixDecides(Padded(a / 10, width - 1), Padded(b / 10, width - 1), [Digit(a)], [Digit(b)]);
    }
  }

  // ---- A date and time as numbers, most significant first ----

  datatype Field = Field(value: nat, width: nat, separator: string)

  function Text(fields: seq<Field>): string {
    if fields == [] then ""
    else Padded(fields[0].value, fields[0].width) + (fields[0].separator + Text(fields[1..]))
  }

  /** The same layout, and every value fits its width. */
  predicate Alike(a: seq<Field>, b: seq<Field>)
    requires |a| == |b|
  {
    a == [] ||
    (a[0].width == b[0].width && a[0].separator == b[0].separator
     && a[0].value < Power(a[0].width) && b[0].value < Power(b[0].width) && Alike(a[1..], b[1..]))
  }

  /** The first values that differ decide. */
  predicate Earlier(a: seq<Field>, b: seq<Field>)
    requires |a| == |b|
  {
    a != [] && (a[0].value < b[0].value || (a[0].value == b[0].value && Earlier(a[1..], b[1..])))
  }

  lemma {:induction false} TextSorts(a: seq<Field>, b: seq<Field>)
    requires |a| == |b| && Alike(a, b) && Earlier(a, b)
    ensures Before(Text(a), Text(b)) && |Text(a)| == |Text(b)|
  {
    var restA, restB := a[0].separator + Text(a[1..]), b[0].separator + Text(b[1..]);
    SameLength(a, b);
    if a[0].value < b[0].value {
      PaddedSorts(a[0].value, b[0].value, a[0].width);
      PrefixDecides(Padded(a[0].value, a[0].width), Padded(b[0].value, b[0].width), restA, restB);
    } else {
      TextSorts(a[1..], b[1..]);
      SamePrefix(a[0].separator, Text(a[1..]), Text(b[1..]));
      SamePrefix(Padded(a[0].value, a[0].width), restA, restB);
    }
  }

  lemma {:induction false} SameLength(a: seq<Field>, b: seq<Field>)
    requires |a| == |b| && Alike(a, b)
    ensures |Text(a)| == |Text(b)|
  {
    if a != [] { SameLength(a[1..], b[1..]); }
  }

  // ---- The calendar ----

  predicate Leap(year: nat) { year % 4 == 0 && (year % 100 != 0 || year % 400 == 0) }

  function YearLength(year: nat): nat { if Leap(year) then 366 else 365 }

  /** The lengths of the months of a year. */
  function Months(leap: bool): seq<nat> { [31, if leap then 29 else 28, 31, 30, 31, 30, 31, 31, 30, 31, 30, 31] }

  datatype Split = Split(part: nat, rest: nat)

  /** The year in which a day lies, counted from the start of a given year, and the day of that year. */
  function YearOf(from: nat, day: nat): (s: Split)
    ensures from <= s.part && s.rest < YearLength(s.part)
    decreases day
  {
    if day < YearLength(from) then Split(from, day) else YearOf(from + 1, day - YearLength(from))
  }

  function Total(lengths: seq<nat>): nat {
    if lengths == [] then 0 else lengths[0] + Total(lengths[1..])
  }

  /** The stretch in which a day lies, when stretches of these lengths follow one another, and its place there. */
  function PlaceOf(lengths: seq<nat>, day: nat): (s: Split)
    requires day < Total(lengths)
    ensures s.part < |lengths| && s.rest < lengths[s.part]
  {
    if day < lengths[0] then Split(0, day)
    else var s := PlaceOf(lengths[1..], day - lengths[0]); Split(s.part + 1, s.rest)
  }

  lemma OneMore(lengths: seq<nat>, k: nat)
    requires k < |lengths|
    ensures Total(lengths[k..]) == lengths[k] + Total(lengths[k + 1..])
  {
    assert lengths[k..][1..] == lengths[k + 1..];
  }

  lemma FourMore(lengths: seq<nat>, k: nat)
    requires k + 4 <= |lengths|
    ensures Total(lengths[k..]) == lengths[k] + lengths[k + 1] + lengths[k + 2] + lengths[k + 3] + Total(lengths[k + 4..])
  {
    OneMore(lengths, k);
    OneMore(lengths, k + 1);
    OneMore(lengths, k + 2);
    OneMore(lengths, k + 3);
  }

  lemma MonthsFillTheYear(leap: bool)
    ensures Total(Months(leap)) == if leap then 366 else 365
  {
    var m := Months(leap);
    assert m[0..] == m && m[12..] == [];
    FourMore(m, 0);
    FourMore(m, 4);
    FourMore(m, 8);
  }

  /** The days of a number of years from a given one on. */
  function YearDays(from: nat, years: nat): nat
    decreases years
  {
    if years == 0 then 0 else YearLength(from) + YearDays(from + 1, years - 1)
  }

  /** Year and day of the year, month and day of the month count back to the day they were split from. */
  lemma {:induction false} YearAddsUp(from: nat, day: nat)
    ensures var y := YearOf(from, day); YearDays(from, y.part - from) + y.rest == day
    decreases day
  {
    if day >= YearLength(from) { YearAddsUp(from + 1, day - YearLength(from)); }
  }

  lemma {:induction false} PlaceAddsUp(lengths: seq<nat>, day: nat)
    requires day < Total(lengths)
    ensures var m := PlaceOf(lengths, day); Total(lengths[..m.part]) + m.rest == day
  {
    if day >= lengths[0] {
      PlaceAddsUp(lengths[1..], day - lengths[0]);
      var m := PlaceOf(lengths, day);
      assert lengths[..m.part][1..] == lengths[1..][..m.part - 1];
    }
  }

  lemma {:induction false} YearSorts(from: nat, a: nat, b: nat)
    requires a < b
    ensures var x, y := YearOf(from, a), YearOf(from, b); x.part < y.part || (x.part == y.part && x.rest < y.rest)
    decreases a
  {
    if a >= YearLength(from) { YearSorts(from + 1, a - YearLength(from), b - YearLength(from)); }
  }

  lemma {:induction false} PlaceSorts(lengths: seq<nat>, a: nat, b: nat)
    requires a < b < Total(lengths)
    ensures var x, y := PlaceOf(lengths, a), PlaceOf(lengths, b);
            x.part < y.part || (x.part == y.part && x.rest < y.rest)
  {
    if a >= lengths[0] { PlaceSorts(lengths[1..], a - lengths[0], b - lengths[0]); }
  }

  // ---- RFC 3339 ----

  const DAY_SECONDS := 86400

  function Year(second: nat): nat { YearOf(1970, second / DAY_SECONDS).part }

  /** Year, month, day, hour, minute and second. */
  function Parts(second: nat): seq<Field> {
    var y := YearOf(1970, second / DAY_SECONDS);
    MonthsFillTheYear(Leap(y.part));
    var m, clock := PlaceOf(Months(Leap(y.part)), y.rest), second % DAY_SECONDS;
    [Field(y.part, 4, "-"), Field(m.part + 1, 2, "-"), Field(m.rest + 1, 2, "T"),
     Field(clock / 3600, 2, ":"), Field(clock % 3600 / 60, 2, ":"), Field(clock % 3600 % 60, 2, "")]
  }

  /** The text up to the second. */
  function Stamp(second: nat): string { Text(Parts(second)) }

  /** The four digits of the year suffice. */
  predicate Printable(second: int) { 0 <= second && Year(second) <= 9999 }

  lemma {:induction false} EarlierAt(x: seq<Field>, y: seq<Field>, k: nat)
    requires |x| == |y| && k < |x| && x[k].value < y[k].value
    requires forall i :: 0 <= i < k ==> x[i].value == y[i].value
    ensures Earlier(x, y)
  {
    if k > 0 { EarlierAt(x[1..], y[1..], k - 1); }
  }

  lemma ClockSorts(a: nat, b: nat)
    requires a < b && a / 3600 == b / 3600
    ensures a % 3600 / 60 < b % 3600 / 60 || (a % 3600 / 60 == b % 3600 / 60 && a % 3600 % 60 < b % 3600 % 60)
  {
    assert a % 3600 < b % 3600 by { assert a == 3600 * (a / 3600) + a % 3600 && b == 3600 * (b / 3600) + b % 3600; }
    MinutesSort(a % 3600, b % 3600);
  }

  lemma MinutesSort(a: nat, b: nat)
    requires a < b
    ensures a / 60 < b / 60 || (a / 60 == b / 60 && a % 60 < b % 60)
  {
  }

  lemma PartsSort(a: nat, b: nat)
    requires a < b
    ensures Earlier(Parts(a), Parts(b))
  {
    var dayA, dayB := a / DAY_SECONDS, b / DAY_SECONDS;
    if dayA < dayB { DatesSort(a, b); } else { ClocksSort(a, b, a % DAY_SECONDS, b % DAY_SECONDS); }
  }

  lemma DatesSort(a: nat, b: nat)
    requires a / DAY_SECONDS < b / DAY_SECONDS
    ensures Earlier(Parts(a), Parts(b))
  {
    var ya, yb := YearOf(1970, a / DAY_SECONDS), YearOf(1970, b / DAY_SECONDS);
    YearSorts(1970, a / DAY_SECONDS, b / DAY_SECONDS);
    MonthsFillTheYear(Leap(ya.part));
    if ya.part < yb.part {
      EarlierAt(Parts(a), Parts(b), 0);
    } else {
      var months := Months(Leap(ya.part));
      PlaceSorts(months, ya.rest, yb.rest);
      EarlierAt(Parts(a), Parts(b), if PlaceOf(months, ya.rest).part < PlaceOf(months, yb.rest).part then 1 else 2);
    }
  }

  lemma ClocksSort(a: nat, b: nat, c: nat, d: nat)
    requires a / DAY_SECONDS == b / DAY_SECONDS && c == a % DAY_SECONDS && d == b % DAY_SECONDS && c < d
    ensures Earlier(Parts(a), Parts(b))
  {
    var x, y := Parts(a), Parts(b);
    if c / 3600 < d / 3600 {
      EarlierAt(x, y, 3);
    } else {
      ClockSorts(c, d);
      EarlierAt(x, y, if c % 3600 / 60 < d % 3600 / 60 then 4 else 5);
    }
  }

  lemma PartsFit(a: nat, b: nat)
    requires Printable(a) && Printable(b)
    ensures Alike(Parts(a), Parts(b))
  {
    assert Power(2) == 100 && Power(4) == 10000;
    var x, y := Parts(a), Parts(b);
    FitAll(x, y);
  }

  lemma {:induction false} FitAll(x: seq<Field>, y: seq<Field>)
    requires |x| == |y|
    requires forall k :: 0 <= k < |x| ==> x[k].width == y[k].width && x[k].separator == y[k].separator
    requires forall k :: 0 <= k < |x| ==> x[k].value < Power(x[k].width) && y[k].value < Power(y[k].width)
    ensures Alike(x, y)
  {
    if x != [] { FitAll(x[1..], y[1..]); }
  }

  /** Stamps sort by time and have one length, in the years from 1970 to 9999. */
  lemma StampSorts(a: nat, b: nat)
    requires a < b && Printable(a) && Printable(b)
    ensures Before(Stamp(a), Stamp(b)) && |Stamp(a)| == |Stamp(b)|
  {
    PartsSort(a, b);
    PartsFit(a, b);
    TextSorts(Parts(a), Parts(b));
  }

  /** The digits of a fraction of a second, without trailing zeros; the unit is that of its first digit. */
  function Digits(ns: nat, unit: nat): string {
    if ns == 0 || unit == 0 then "" else [Digit(ns / unit)] + Digits(ns % unit, unit / 10)
  }

  function Fraction(ns: nat): string { if ns == 0 then "" else "." + Digits(ns, SECOND / 10) }

  /** With the fraction, as records are stored. */
  function NanoText(time: nat): string { Stamp(time / SECOND) + (Fraction(time % SECOND) + "Z") }

  /** Without it, as the query is given the start of the window. */
  function SecondText(time: nat): string { Stamp(time / SECOND) + "Z" }

  /** The two formats sort as the times do, except that a fraction of the same second sorts before the second itself. */
  lemma FormatsSort(time: nat, second: nat)
    requires second % SECOND == 0 && Printable(time / SECOND) && Printable(second / SECOND)
    ensures Before(NanoText(time), SecondText(second)) <==> time < second || second < time < second + SECOND
  {
    var a, b, rest := time / SECOND, second / SECOND, Fraction(time % SECOND) + "Z";
    if a < b {
      StampSorts(a, b);
      PrefixDecides(Stamp(a), Stamp(b), rest, "Z");
    } else if b < a {
      StampSorts(b, a);
      PrefixDecides(Stamp(b), Stamp(a), "Z", rest);
    } else {
      SamePrefix(Stamp(a), rest, "Z");
      assert rest[0] == if time == second then 'Z' else '.';
    }
  }
}
