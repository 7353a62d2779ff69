/**
 * The branch-name formatter of the uploader, `generateTimestamp` in
 * backend/services.js. The clock is not read here: the calendar fields of
 * the moment the name is made are a parameter.
 */
module Timestamp {
  import opened Options

  /** The fields the formatter reads from a JavaScript `Date` in local time.
      `monthIndex` is `getMonth()`, which counts from 0. */
  datatype DateTime = DateTime(year: int, monthIndex: nat, day: nat, hours: nat, minutes: nat, seconds: nat)
  {
    /** Every field after the year, as rendered, is below 100: true of
        every `Date`, whose getters return a month index below 12, a day
        up to 31, hours below 24 and minutes and seconds below 60. */
    predicate TwoDigitFields() {
      monthIndex + 1 < 100 && day < 100 && hours < 100 && minutes < 100 && seconds < 100
    }
  }

  const Prefix := "build-"

  /** The width of "-MM-DD-hh-mm-ss", everything after the year. */
  const TailLength := 15

  predicate IsDigit(c: char) { '0' <= c <= '9' }

  predicate AllDigits(s: string) { forall i | 0 <= i < |s| :: IsDigit(s[i]) }

  function DigitValue(c: char): (d: nat)
    requires IsDigit(c)
    ensures d < 10
  {
    c as int - '0' as int
  }

  function DigitChar(d: nat): (c: char)
    requires d < 10
    ensures IsDigit(c) && DigitValue(c) == d
  {
    ('0' as int + d) as char
  }

  /** `String(n)` for a non-negative integer: its decimal digits, most
      significant first, with no leading zero. */
  function NatToString(n: nat): (s: string)
    ensures 1 <= |s| && AllDigits(s)
    ensures s[0] == '0' <==> n == 0
    ensures n < 10 <==> |s| == 1
    ensures n < 100 <==> |s| <= 2
  {
    if n < 10 then [DigitChar(n)] else NatToString(n / 10) + [DigitChar(n % 10)]
  }

  /** `String(i)` for any integer: a minus sign before the digits of a
      negative value. */
  function IntToString(i: int): (s: string)
    ensures 1 <= |s|
    ensures s[0] == '-' <==> i < 0
  {
    if i < 0 then "-" + NatToString(-i) else NatToString(i)
  }

  /** `s.padStart(2, "0")`: '0's on the left up to length 2. A longer
      string is returned unchanged, never cut. */
  function PadStart2(s: string): (r: string)
    ensures |r| == if |s| < 2 then 2 else |s|
    ensures r[|r| - |s|..] == s
    ensures forall i | 0 <= i < |r| - |s| :: r[i] == '0'
  {
    if |s| == 0 then "00" else if |s| == 1 then "0" + s else s
  }

  /** One field after the year: `String(n).padStart(2, "0")`. */
  function Field(n: nat): string {
    PadStart2(NatToString(n))
  }

  /** The name `generateTimestamp` returns for the moment `t`. */
  function BranchName(t: DateTime): string {
    Prefix + IntToString(t.year) + Tail(t)
  }

  /** "-MM-DD-hh-mm-ss": the fields after the year, each after a dash. */
  function Tail(t: DateTime): string {
    Dashed(FieldValues(t))
  }

  /** The values of the fields after the year, in the order they are written. */
  function FieldValues(t: DateTime): seq<nat> {
    [t.monthIndex + 1, t.day, t.hours, t.minutes, t.seconds]
  }

  /** Each value rendered as a field, after a dash. */
  function Dashed(values: seq<nat>): string {
    if values == [] then "" else "-" + Field(values[0]) + Dashed(values[1..])
  }

  /** Reads a string of decimal digits. */
  function ParseNat(s: string): nat
    requires AllDigits(s)
  {
    if s == [] then 0 else 10 * ParseNat(s[..|s| - 1]) + DigitValue(s[|s| - 1])
  }

  /** Reads an optional minus sign followed by at least one digit. */
  function ParseInt(s: string): Option<int> {
    if |s| > 1 && s[0] == '-' && AllDigits(s[1..]) then Some(0 - ParseNat(s[1..]) as int)
    else if |s| > 0 && AllDigits(s) then Some(ParseNat(s))
    else None
  }

  /** Reads a field of exactly two digits. */
  function ParseField(s: string): Option<nat> {
    if |s| == 2 && AllDigits(s) then Some(ParseNat(s)) else None
  }

  /** Reads a run of two-digit fields, each after a dash. */
  function ParseDashed(s: string): Option<seq<nat>>
    decreases |s|
  {
    if s == [] then Some([])
    else if |s| < 3 || s[0] != '-' then None
    else
      match (ParseField(s[1..3]), ParseDashed(s[3..]))
      case (Some(v), Some(rest)) => Some([v] + rest)
      case _ => None
  }

  /** Recovers the moment from a name of the shape
      build-<year>-MM-DD-hh-mm-ss, where the year is a decimal integer and
      each later field is exactly two digits; None for any other string. */
  function ParseBranchName(name: string): Option<DateTime> {
    if |name| < |Prefix| + TailLength || name[..|Prefix|] != Prefix then None
    else
      match (ParseInt(name[|Prefix|..|name| - TailLength]), ParseDashed(name[|name| - TailLength..]))
      case (Some(y), Some(f)) =>
        if |f| != 5 || f[0] == 0 then None else Some(DateTime(y, f[0] - 1, f[1], f[2], f[3], f[4]))
      case _ => None
  }

  lemma {:induction false} NatToStringRoundTrip(n: nat)
    ensures ParseNat(NatToString(n)) == n
  {
    if n >= 10 {
      var s := NatToString(n);
      assert s[..|s| - 1] == NatToString(n / 10);
      NatToStringRoundTrip(n / 10);
    }
  }

  lemma IntToStringRoundTrip(i: int)
    ensures ParseInt(IntToString(i)) == Some(i)
  {
    var s := IntToString(i);
    if i < 0 {
      var digits := NatToString(-i);
      assert s == "-" + digits;
      assert s[1..] == digits;
      NatToStringRoundTrip(-i);
      assert ParseInt(s) == Some(0 - ParseNat(digits) as int);
    } else {
      NatToStringRoundTrip(i);
      assert s[0] != '-';
    }
  }

  /** A field below 100 is exactly two decimal digits that read back as the
      value, with a leading '0' exactly when the value is below 10. */
  lemma FieldDigits(n: nat)
    requires n < 100
    ensures |Field(n)| == 2 && AllDigits(Field(n))
    ensures ParseField(Field(n)) == Some(n)
    ensures Field(n)[0] == '0' <==> n < 10
  {
    var f := Field(n);
    if n < 10 {
      assert NatToString(n) == [DigitChar(n)];
      assert f == ['0', DigitChar(n)];
      assert f[..1] == ['0'] && ParseNat(f[..1]) == 0;
    } else {
      assert NatToString(n / 10) == [DigitChar(n / 10)];
      assert f == NatToString(n) == [DigitChar(n / 10), DigitChar(n % 10)];
      NatToStringRoundTrip(n);
    }
  }

  /** The month field is `getMonth() + 1`: for the indices 0..11 it renders
      as "01".."12". */
  lemma MonthField(monthIndex: nat)
    requires monthIndex < 12
    ensures var f := Field(monthIndex + 1);
      |f| == 2 && ParseField(f) == Some(monthIndex + 1)
      && (f[0] == '0' <==> monthIndex < 9)
      && (f[0] == '1' <==> 9 <= monthIndex)
  {
    var m := monthIndex + 1;
    FieldDigits(m);
    if 10 <= m {
      assert Field(m) == [DigitChar(1), DigitChar(m % 10)] by {
        assert NatToString(m / 10) == [DigitChar(1)];
      }
    }
  }

  lemma {:induction false} DashedRoundTrip(values: seq<nat>)
    requires forall i | 0 <= i < |values| :: values[i] < 100
    ensures |Dashed(values)| == 3 * |values|
    ensures ParseDashed(Dashed(values)) == Some(values)
  {
    if values != [] {
      var s := Dashed(values);
      FieldDigits(values[0]);
      DashedRoundTrip(values[1..]);
      assert s[1..3] == Field(values[0]);
      assert s[3..] == Dashed(values[1..]);
      assert [values[0]] + values[1..] == values;
    }
  }

  /** A field is all digits and never cut: exactly two digits for a value
      below 100, and all the digits of a larger value. */
  lemma FieldShape(n: nat)
    ensures 2 <= |Field(n)| && AllDigits(Field(n))
    ensures |Field(n)| == 2 <==> n < 100
    ensures Field(n)[|Field(n)| - |NatToString(n)|..] == NatToString(n)
  {
    var s := NatToString(n);
    if |s| == 1 {
      assert Field(n) == ['0', s[0]];
    } else {
      assert Field(n) == s;
    }
  }

  /** A generated name is "build-", the year, and then 15 characters when
      every later field is below 100. */
  lemma BranchNameShape(t: DateTime)
    ensures |Prefix| < |BranchName(t)| && BranchName(t)[..|Prefix|] == Prefix
    ensures t.TwoDigitFields() ==> |BranchName(t)| == |Prefix| + |IntToString(t.year)| + TailLength
  {
    var name := BranchName(t);
    assert name[..|Prefix|] == Prefix;
    if t.TwoDigitFields() {
      DashedRoundTrip(FieldValues(t));
    }
  }

  /** Parsing a generated name gives back the moment it was made from. */
  lemma ParseBranchNameRoundTrip(t: DateTime)
    requires t.TwoDigitFields()
    ensures ParseBranchName(BranchName(t)) == Some(t)
  {
    var y, tail := IntToString(t.year), Tail(t);
    DashedRoundTrip(FieldValues(t));
    IntToStringRoundTrip(t.year);
    var name := BranchName(t);
    assert name[|Prefix|..|name| - TailLength] == y;
    assert name[|name| - TailLength..] == tail;
  }

  /** Distinct moments give distinct names: the later fields have fixed
      width, so the dashes cannot be confused with digits. */
  lemma BranchNameInjective(t1: DateTime, t2: DateTime)
    requires t1.TwoDigitFields() && t2.TwoDigitFields()
    requires t1 != t2
    ensures BranchName(t1) != BranchName(t2)
  {
    ParseBranchNameRoundTrip(t1);
    ParseBranchNameRoundTrip(t2);
  }
}
