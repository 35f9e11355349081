/** RFC 3339 rendering of milliseconds since the epoch. */
module Timestamps {
  import opened Arithmetic
  import opened Calendar

  /** The last millisecond of year 9999; no timestamp is later. */
  const MAX_TIMESTAMP_MILLIS: nat := 253_402_300_799_999

  function Power(width: nat): nat { if width == 0 then 1 else 10 * Power(width - 1) }

  /** Zero-padded decimal digits. */
  function Digits(n: nat, width: nat): (s: string)
    ensures |s| == width
  {
    if width == 0 then "" else Digits(n / 10, width - 1) + [Digit(n % 10)]
  }

  function Digit(n: nat): char
    requires n < 10
  {
    "0123456789"[n]
  }

  /** A number of fixed width and the character after it. */
  datatype Field = Field(value: nat, width: nat, separator: char)

  function Joined(fs: seq<Field>): string {
    if fs == [] then "" else Digits(fs[0].value, fs[0].width) + [fs[0].separator] + Joined(fs[1..])
  }

  function Fields(millis: nat): seq<Field> {
    var seconds := millis / 1000;
    var date := CivilDate(seconds / 86_400);
    var rest := seconds % 86_400;
    DatesAreSane(seconds / 86_400);
    [Field(date.year, 4, '-'), Field(date.month, 2, '-'), Field(date.day, 2, 'T'),
     Field(rest / 3600, 2, ':'), Field(rest % 3600 / 60, 2, ':'), Field(rest % 60, 2, '.'),
     Field(millis % 1000, 3, 'Z')]
  }

  function Rendered(millis: nat): string
    requires millis <= MAX_TIMESTAMP_MILLIS
  {
    Joined(Fields(millis))
  }

  lemma DatesAreSane(days: nat)
    ensures CivilDate(days).year >= 1970 && 1 <= CivilDate(days).month <= 12 && 1 <= CivilDate(days).day <= 31
  {
    CivilDateIsNthDay(days);
    NthDayCounts(days);
  }

  // ---------- Order ----------

  predicate Less(a: string, b: string) {
    exists k :: 0 <= k < |a| && k < |b| && a[..k] == b[..k] && a[k] < b[k]
  }

  lemma LessPrefix(p: string, a: string, b: string)
    requires Less(a, b)
    ensures Less(p + a, p + b)
  {
    var k :| 0 <= k < |a| && k < |b| && a[..k] == b[..k] && a[k] < b[k];
    assert (p + a)[..|p| + k] == p + a[..k] && (p + b)[..|p| + k] == p + b[..k];
    assert (p + a)[|p| + k] < (p + b)[|p| + k];
  }

  lemma LessSuffix(a: string, b: string, x: string, y: string)
    requires Less(a, b)
    ensures Less(a + x, b + y)
  {
    var k :| 0 <= k < |a| && k < |b| && a[..k] == b[..k] && a[k] < b[k];
    assert (a + x)[..k] == a[..k] && (b + y)[..k] == b[..k];
    assert (a + x)[k] < (b + y)[k];
  }

  lemma {:induction false} DigitsOrder(n: nat, m: nat, width: nat)
    requires n < m < Power(width)
    ensures Less(Digits(n, width), Digits(m, width))
  {
    if n / 10 == m / 10 {
      assert [Digit(n % 10)][..0] == [Digit(m % 10)][..0];
      assert Less([Digit(n % 10)], [Digit(m % 10)]);
      LessPrefix(Digits(n / 10, width - 1), [Digit(n % 10)], [Digit(m % 10)]);
    } else {
      DigitsOrder(n / 10, m / 10, width - 1);
      LessSuffix(Digits(n / 10, width - 1), Digits(m / 10, width - 1), [Digit(n % 10)], [Digit(m % 10)]);
    }
  }

  predicate SameColumn(f: Field, g: Field) {
    f.width == g.width && f.separator == g.separator && g.value < Power(g.width)
  }

  predicate SameShape(a: seq<Field>, b: seq<Field>) {
    |a| == |b| && forall i :: 0 <= i < |a| ==> SameColumn(a[i], b[i])
  }

  predicate FieldsLess(a: seq<Field>, b: seq<Field>)
    requires |a| == |b|
  {
    a != [] && (a[0].value < b[0].value || (a[0].value == b[0].value && FieldsLess(a[1..], b[1..])))
  }

  lemma {:induction false} JoinedOrder(a: seq<Field>, b: seq<Field>)
    requires SameShape(a, b) && FieldsLess(a, b)
    ensures Less(Joined(a), Joined(b))
  {
    assert SameColumn(a[0], b[0]);
    if a[0].value < b[0].value {
      HeadDecides(a[0], b[0], Joined(a[1..]), Joined(b[1..]));
    } else {
      assert SameShape(a[1..], b[1..]) by {
        assert forall i :: 0 <= i < |a| - 1 ==> a[1..][i] == a[i + 1] && b[1..][i] == b[i + 1];
      }
      JoinedOrder(a[1..], b[1..]);
      LessPrefix(Digits(a[0].value, a[0].width) + [a[0].separator], Joined(a[1..]), Joined(b[1..]));
    }
  }

  lemma HeadDecides(f: Field, g: Field, x: string, y: string)
    requires SameColumn(f, g) && f.value < g.value
    ensures Less(Digits(f.value, f.width) + [f.separator] + x, Digits(g.value, g.width) + [g.separator] + y)
  {
    DigitsOrder(f.value, g.value, f.width);
    LessSuffix(Digits(f.value, f.width), Digits(g.value, g.width), [f.separator], [g.separator]);
    LessSuffix(Digits(f.value, f.width) + [f.separator], Digits(g.value, g.width) + [g.separator], x, y);
  }

  /** Year 9999 is the last one, so four digits always suffice. */
  lemma YearFits(days: nat)
    requires days <= 2_932_896
    ensures CivilDate(days).year <= 9999
  {
    LastDay();
    if days < 2_932_896 { LaterDaysAreLaterDates(days, 2_932_896); }
  }

  lemma LastDay()
    ensures CivilDate(2_932_896) == Date(9999, 12, 31)
  {
    QuotientIs(2_932_896 + EPOCH_SHIFT, DAYS_PER_ERA, 24);
    assert Splits(146_036, 3, 24, 1_400);
    YearOfEraIs(146_036, 3, 24, 1_400);
    assert CivilDate(2_932_896) == MarchDate(9999, 305);
  }

  lemma Widths()
    ensures Power(4) == 10000 && Power(3) == 1000 && Power(2) == 100
  {
    assert Power(1) == 10;
  }

  /** Earlier milliseconds are rendered as smaller strings, so timestamps can be
      compared as text. */
  lemma RenderedInOrder(a: nat, b: nat)
    requires a < b <= MAX_TIMESTAMP_MILLIS
    ensures Less(Rendered(a), Rendered(b))
  {
    FieldsFit(a, b);
    FieldsInOrder(a, b);
    JoinedOrder(Fields(a), Fields(b));
  }

  lemma FieldsFit(a: nat, b: nat)
    requires b <= MAX_TIMESTAMP_MILLIS
    ensures SameShape(Fields(a), Fields(b))
  {
    Widths();
    YearFits(b / 1000 / 86_400);
    DatesAreSane(b / 1000 / 86_400);
  }

  lemma FieldsInOrder(a: nat, b: nat)
    requires a < b
    ensures |Fields(a)| == |Fields(b)| && FieldsLess(Fields(a), Fields(b))
  {
    var dayA, dayB := a / 1000 / 86_400, b / 1000 / 86_400;
    if dayA < dayB {
      LaterDaysAreLaterDates(dayA, dayB);
      DatesDecide(Fields(a), Fields(b));
    } else {
      TimesDecide(a, b);
    }
  }

  lemma DatesDecide(x: seq<Field>, y: seq<Field>)
    requires |x| == |y| == 7
    requires Before(Date(x[0].value, x[1].value, x[2].value), Date(y[0].value, y[1].value, y[2].value))
    ensures FieldsLess(x, y)
  {
    assert x[1..][0] == x[1] && y[1..][0] == y[1] && x[1..][1..][0] == x[2] && y[1..][1..][0] == y[2];
  }

  lemma TimesDecide(a: nat, b: nat)
    requires a < b && a / 1000 / 86_400 == b / 1000 / 86_400
    ensures FieldsLess(Fields(a), Fields(b))
  {
    var x, y := Fields(a), Fields(b);
    assert x[1..][1..][1..] == x[3..] && y[1..][1..][1..] == y[3..];
    SecondsDecide(a / 1000 % 86_400, b / 1000 % 86_400, a % 1000, b % 1000);
    LaterFields(x, y);
  }

  lemma SecondsDecide(a: nat, b: nat, x: nat, y: nat)
    requires a < b || (a == b && x < y)
    ensures a / 3600 < b / 3600 || (a / 3600 == b / 3600
      && (a % 3600 / 60 < b % 3600 / 60 || (a % 3600 / 60 == b % 3600 / 60
          && (a % 60 < b % 60 || (a % 60 == b % 60 && x < y)))))
  { }

  lemma LaterFields(x: seq<Field>, y: seq<Field>)
    requires |x| == |y| == 7
    requires forall i :: 0 <= i < 3 ==> x[i].value == y[i].value
    requires x[3].value < y[3].value || (x[3].value == y[3].value
      && (x[4].value < y[4].value || (x[4].value == y[4].value
          && (x[5].value < y[5].value || (x[5].value == y[5].value && x[6].value < y[6].value)))))
    ensures FieldsLess(x, y)
  {
    assert FieldsLess(x[6..], y[6..]) <==> x[6].value < y[6].value;
    assert x[5..][1..] == x[6..] && y[5..][1..] == y[6..] && x[4..][1..] == x[5..] && y[4..][1..] == y[5..];
    assert x[3..][1..] == x[4..] && y[3..][1..] == y[4..] && x[2..][1..] == x[3..] && y[2..][1..] == y[3..];
    assert x[1..][1..] == x[2..] && y[1..][1..] == y[2..];
    assert FieldsLess(x[5..], y[5..]) <==>
      x[5].value < y[5].value || (x[5].value == y[5].value && FieldsLess(x[6..], y[6..]));
    assert FieldsLess(x[4..], y[4..]) <==>
      x[4].value < y[4].value || (x[4].value == y[4].value && FieldsLess(x[5..], y[5..]));
    assert FieldsLess(x[3..], y[3..]);
    assert FieldsLess(x[2..], y[2..]);
    assert FieldsLess(x[1..], y[1..]);
  }

  // ---------- Shape ----------

  /** Every timestamp has the 24 characters of RFC 3339 with milliseconds in UTC. */
  lemma RenderedShape(millis: nat)
    requires millis <= MAX_TIMESTAMP_MILLIS
    ensures |Rendered(millis)| == 24
    ensures var fs := Fields(millis);
      Rendered(millis) ==
        Digits(fs[0].value, 4) + "-" + (Digits(fs[1].value, 2) + "-" + (Digits(fs[2].value, 2) + "T"
        + (Digits(fs[3].value, 2) + ":" + (Digits(fs[4].value, 2) + ":" + (Digits(fs[5].value, 2) + "."
        + (Digits(fs[6].value, 3) + "Z"))))))
  {
    var fs := Fields(millis);
    assert fs[7..] == [] && fs[0..] == fs;
    JoinedFrom(fs, 6);
    assert Joined(fs[6..]) == Digits(fs[6].value, 3) + "Z";
    JoinedFrom(fs, 5);
    JoinedFrom(fs, 4);
    JoinedFrom(fs, 3);
    JoinedFrom(fs, 2);
    JoinedFrom(fs, 1);
    JoinedFrom(fs, 0);
  }

  lemma JoinedFrom(fs: seq<Field>, i: nat)
    requires i < |fs|
    ensures Joined(fs[i..]) == Digits(fs[i].value, fs[i].width) + [fs[i].separator] + Joined(fs[i + 1..])
  {
    assert fs[i..][0] == fs[i] && fs[i..][1..] == fs[i + 1..];
  }

  lemma SplitsSeconds(rest: nat)
    requires rest < 86_400
    ensures rest / 3600 < 24 && rest % 3600 / 60 < 60 && rest % 60 < 60
    ensures rest == rest / 3600 * 3600 + rest % 3600 / 60 * 60 + rest % 60
  { }

  /** The date is that of the day, and the time of day is what remains of the
      millisecond count. */
  lemma FieldsAddUp(millis: nat)
    ensures var fs, days := Fields(millis), millis / 1000 / 86_400;
      && Date(fs[0].value, fs[1].value, fs[2].value) == CivilDate(days)
      && fs[3].value < 24 && fs[4].value < 60 && fs[5].value < 60 && fs[6].value < 1000
      && millis == days * 86_400_000 + fs[3].value * 3_600_000 + fs[4].value * 60_000 + fs[5].value * 1000 + fs[6].value
  {
    var seconds := millis / 1000;
    SplitsSeconds(seconds % 86_400);
    assert millis == seconds * 1000 + millis % 1000;
    assert seconds == seconds / 86_400 * 86_400 + seconds % 86_400;
  }
}
