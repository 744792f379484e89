/** The pieces of Go's `strconv`, `fmt`, `errors` and `time` that the
    command-line messages are built from: decimal digits, `strconv.Atoi`,
    `%q` quoting, `%v` of a string slice, `errors.Join` and
    `time.Duration.String` on whole seconds. */
module Text {
  import opened Wrappers

  predicate IsDigit(c: char) { '0' <= c <= '9' }

  predicate AllDigits(s: string) { forall i :: 0 <= i < |s| ==> IsDigit(s[i]) }

  function DigitValue(c: char): (d: nat)
    requires IsDigit(c)
    ensures d < 10
  {
    (c as int) - ('0' as int)
  }

  function DigitChar(d: nat): (c: char)
    requires d < 10
    ensures IsDigit(c) && DigitValue(c) == d
  {
    ('0' as int + d) as char
  }

  /** Decimal value of a digit string, most significant digit first. */
  function DigitsValue(s: string): nat
    requires AllDigits(s)
  {
    if s == [] then 0 else DigitsValue(s[..|s| - 1]) * 10 + DigitValue(s[|s| - 1])
  }

  /** `strconv.Itoa` on a non-negative value: the shortest decimal spelling,
      with no leading zero. */
  function NatToDigits(n: nat): (s: string)
    ensures |s| > 0 && AllDigits(s)
    ensures |s| > 1 ==> s[0] != '0'
  {
    if n < 10 then [DigitChar(n)] else NatToDigits(n / 10) + [DigitChar(n % 10)]
  }

  lemma {:induction false} DigitsRoundTrip(n: nat)
    ensures DigitsValue(NatToDigits(n)) == n
  {
    if n >= 10 {
      var s := NatToDigits(n);
      assert s[..|s| - 1] == NatToDigits(n / 10);
      DigitsRoundTrip(n / 10);
    }
  }

  /** Go's `int` is 64 bits wide on every platform the command ships for. */
  const MinInt: int := -0x8000_0000_0000_0000
  const MaxInt: int := 0x7fff_ffff_ffff_ffff

  predicate InIntRange(n: int) { MinInt <= n <= MaxInt }

  /** `strconv.Itoa`. */
  function FormatInt(n: int): string
  {
    if n < 0 then "-" + NatToDigits(-n) else NatToDigits(n)
  }

  /** The two failures `strconv.Atoi` reports, with the text it was given. */
  datatype NumError = SyntaxError(num: string) | RangeError(num: string)

  /** `strconv.NumError.Error()` for `Atoi`. */
  function NumErrorMessage(e: NumError): string
  {
    match e
    case SyntaxError(num) => "strconv.Atoi: parsing " + Quote(num) + ": invalid syntax"
    case RangeError(num) => "strconv.Atoi: parsing " + Quote(num) + ": value out of range"
  }

  /** The text of an `Atoi` error tells which error it is and what text was
      parsed. */
  lemma NumErrorMessageInjective(e1: NumError, e2: NumError)
    ensures NumErrorMessage(e1) == NumErrorMessage(e2) ==> e1 == e2
  {
    if NumErrorMessage(e1) == NumErrorMessage(e2) {
      var m := NumErrorMessage(e1);
      var t1 := if e1.SyntaxError? then ": invalid syntax" else ": value out of range";
      var t2 := if e2.SyntaxError? then ": invalid syntax" else ": value out of range";
      assert m == "strconv.Atoi: parsing " + Quote(e1.num) + t1;
      assert m == "strconv.Atoi: parsing " + Quote(e2.num) + t2;
      assert m[|m| - 1] == t1[|t1| - 1] == t2[|t2| - 1];
      QuotedAt("strconv.Atoi: parsing ", e1.num, t1);
      QuotedAt("strconv.Atoi: parsing ", e2.num, t2);
    }
  }

  predicate HasSign(s: string) { |s| > 0 && (s[0] == '+' || s[0] == '-') }

  /** The digits part of a decimal literal: what follows an optional sign. */
  function Magnitude(s: string): string
  {
    if HasSign(s) then s[1..] else s
  }

  /** What `strconv.Atoi` accepts as syntax: an optional `+` or `-` followed by
      one or more decimal digits and nothing else. */
  predicate IsDecimal(s: string) { |Magnitude(s)| > 0 && AllDigits(Magnitude(s)) }

  /** `strconv.Atoi`: a decimal literal within the range of Go's `int`. */
  function Atoi(s: string): (r: Result<int, NumError>)
    ensures r.Err? ==> r.error.num == s
    ensures r == Err(SyntaxError(s)) <==> !IsDecimal(s)
    ensures r.Ok? ==> InIntRange(r.value)
    ensures r.Ok? ==> (r.value < 0 <==> s[0] == '-' && DigitsValue(Magnitude(s)) != 0)
  {
    if !IsDecimal(s) then Err(SyntaxError(s))
    else
      var m: int := DigitsValue(Magnitude(s));
      var v := if |s| > 0 && s[0] == '-' then -m else m;
      if InIntRange(v) then Ok(v) else Err(RangeError(s))
  }

  /** `strconv.Atoi(strconv.Itoa(n)) == n` for every `int`. */
  lemma AtoiFormatInt(n: int)
    requires InIntRange(n)
    ensures Atoi(FormatInt(n)) == Ok(n)
  {
    var m: nat := if n < 0 then -n else n;
    var d := NatToDigits(m);
    var s := FormatInt(n);
    DigitsRoundTrip(m);
    if n < 0 {
      assert s == "-" + d && s[1..] == d;
    } else {
      assert s == d && !HasSign(s);
    }
    assert Magnitude(s) == d;
  }

  /** `%q` of a string without characters that need escaping. */
  function Quote(s: string): (q: string)
    ensures |q| == |s| + 2 && q[0] == '"' && q[|q| - 1] == '"' && q[1..|q| - 1] == s
  {
    "\"" + s + "\""
  }

  /** Where the quoted text sits inside a message. */
  lemma QuotedAt(p: string, n: string, rest: string)
    ensures |p + Quote(n) + rest| == |p| + |n| + 2 + |rest|
    ensures (p + Quote(n) + rest)[|p| + 1..|p| + 1 + |n|] == n
  {
    assert p + Quote(n) + rest == (p + "\"") + n + ("\"" + rest);
  }

  lemma QuotedWithin(p: string, n: string, r1: string, r2: string)
    ensures |p + Quote(n) + r1 + r2| == |p| + |n| + 2 + |r1| + |r2|
    ensures (p + Quote(n) + r1 + r2)[|p| + 1..|p| + 1 + |n|] == n
  {
    QuotedAt(p, n, r1);
    var a := p + Quote(n) + r1;
    assert (a + r2)[|p| + 1..|p| + 1 + |n|] == a[|p| + 1..|p| + 1 + |n|];
  }

  lemma MiddleWithin(p: string, x: string, r1: string, r2: string)
    ensures |p + x + r1 + r2| == |p| + |x| + |r1| + |r2|
    ensures (p + x + r1 + r2)[|p|..|p| + |x|] == x
  {
    var a := p + x + r1;
    assert (a + r2)[|p|..|p| + |x|] == a[|p|..|p| + |x|];
  }

  function JoinWith(items: seq<string>, sep: string): string
  {
    if items == [] then ""
    else if |items| == 1 then items[0]
    else items[0] + sep + JoinWith(items[1..], sep)
  }

  /** `%v` of a `[]string`. */
  function FormatList(items: seq<string>): string
  {
    "[" + JoinWith(items, " ") + "]"
  }

  /** The text of `errors.Join(errs...)`: one message per line. */
  function JoinLines(messages: seq<string>): string
  {
    JoinWith(messages, "\n")
  }

  /** `time.Duration.String()` for a non-negative whole number of seconds:
      `0s`, `45s`, `1m30s`, `2h0m5s`. */
  function FormatSeconds(d: nat): (s: string)
    ensures |s| > 0 && IsDigit(s[0]) && s[|s| - 1] == 's'
  {
    if d < 60 then NatToDigits(d) + "s"
    else if d < 3600 then NatToDigits(d / 60) + "m" + NatToDigits(d % 60) + "s"
    else NatToDigits(d / 3600) + "h" + NatToDigits(d / 60 % 60) + "m" + NatToDigits(d % 60) + "s"
  }

  /** `time.Duration.String()` for a whole number of seconds. */
  function FormatDuration(d: int): string
  {
    if d < 0 then "-" + FormatSeconds(-d) else FormatSeconds(d)
  }

  predicate IsUnit(u: char) { u == 'h' || u == 'm' || u == 's' }

  function UnitSeconds(u: char): nat
  {
    if u == 'h' then 3600 else if u == 'm' then 60 else 1
  }

  /** Reads `s` from position `i` on, `acc` being the value of the digits
      read since the last unit and `inGroup` whether there are any. */
  function ReadFrom(s: string, i: nat, acc: nat, inGroup: bool): Option<nat>
    requires i <= |s|
    decreases |s| - i
  {
    if i == |s| then (if inGroup then None else Some(0))
    else if IsDigit(s[i]) then ReadFrom(s, i + 1, acc * 10 + DigitValue(s[i]), true)
    else if inGroup && IsUnit(s[i]) then
      match ReadFrom(s, i + 1, 0, false)
      case None => None
      case Some(rest) => Some(acc * UnitSeconds(s[i]) + rest)
    else None
  }

  /** Reads a duration back the way `time.ParseDuration` reads whole numbers
      of hours, minutes and seconds: one or more groups of digits, each
      followed by its unit, adding up to the seconds returned; `None` for a
      text not of that form. */
  function ReadUnits(s: string): Option<nat>
  {
    if s == [] then None else ReadFrom(s, 0, 0, false)
  }

  /** `ReadUnits` after an optional minus sign. */
  function ReadDuration(s: string): Option<int>
  {
    if |s| > 0 && s[0] == '-' then
      match ReadUnits(s[1..])
      case None => None
      case Some(v) => Some(-(v as int))
    else
      match ReadUnits(s)
      case None => None
      case Some(v) => Some(v)
  }

  /** A run of digits read one by one adds up to its decimal value. */
  lemma {:induction false} ReadDigits(s: string, i: nat, j: nat)
    requires i <= j <= |s| && AllDigits(s[i..j])
    ensures ReadFrom(s, i, 0, false) == ReadFrom(s, j, DigitsValue(s[i..j]), i < j)
    decreases j - i
  {
    if i < j {
      assert s[i..j - 1] == s[i..j][..j - 1 - i];
      assert AllDigits(s[i..j - 1]);
      ReadDigits(s, i, j - 1);
      assert s[j - 1] == s[i..j][j - 1 - i];
    }
  }

  /** What precedes a position does not affect reading from it. */
  lemma {:induction false} ReadShift(p: string, t: string, i: nat, acc: nat, inGroup: bool)
    requires i <= |t|
    ensures ReadFrom(p + t, |p| + i, acc, inGroup) == ReadFrom(t, i, acc, inGroup)
    decreases |t| - i
  {
    if i < |t| {
      assert (p + t)[|p| + i] == t[i];
      if IsDigit(t[i]) {
        ReadShift(p, t, i + 1, acc * 10 + DigitValue(t[i]), true);
      } else {
        ReadShift(p, t, i + 1, 0, false);
      }
    }
  }

  /** One group read back: the digits of `n` and a unit, then the rest. */
  lemma ReadGroup(n: nat, u: char, rest: string)
    requires IsUnit(u)
    ensures ReadFrom(NatToDigits(n) + [u] + rest, 0, 0, false) ==
            match ReadFrom(rest, 0, 0, false)
            case None => None
            case Some(v) => Some(n * UnitSeconds(u) + v)
  {
    var a := NatToDigits(n);
    var s := a + [u] + rest;
    assert s[0..|a|] == a;
    ReadDigits(s, 0, |a|);
    DigitsRoundTrip(n);
    assert s[|a|] == u;
    ReadShift(a + [u], rest, 0, 0, false);
  }

  /** Whole minutes and hours of a number of seconds. */
  lemma SplitSeconds(d: nat)
    ensures d / 60 == d / 3600 * 60 + d / 60 % 60
    ensures d == d / 60 * 60 + d % 60
  {
  }

  /** The trailing seconds group of a rendered duration reads back. */
  lemma ReadSecondsGroup(d: nat)
    ensures ReadFrom(NatToDigits(d % 60) + "s", 0, 0, false) == Some(d % 60)
  {
    ReadGroup(d % 60, 's', []);
    assert NatToDigits(d % 60) + ['s'] + [] == NatToDigits(d % 60) + "s";
  }

  /** A duration of at least a minute but under an hour reads back. */
  lemma ReadMinutesSeconds(d: nat)
    requires 60 <= d < 3600
    ensures ReadUnits(FormatSeconds(d)) == Some(d)
  {
    var sec := NatToDigits(d % 60) + "s";
    ReadSecondsGroup(d);
    ReadGroup(d / 60, 'm', sec);
    assert FormatSeconds(d) == NatToDigits(d / 60) + ['m'] + sec;
    SplitSeconds(d);
  }

  /** A duration of an hour or more reads back. */
  lemma ReadHoursMinutesSeconds(d: nat)
    requires 3600 <= d
    ensures ReadUnits(FormatSeconds(d)) == Some(d)
  {
    var h, m, r := d / 3600, d / 60 % 60, d % 60;
    var sec := NatToDigits(r) + "s";
    var min := NatToDigits(m) + "m" + sec;
    ReadSecondsGroup(d);
    ReadGroup(m, 'm', sec);
    assert NatToDigits(m) + ['m'] + sec == min;
    ReadGroup(h, 'h', min);
    assert FormatSeconds(d) == NatToDigits(h) + ['h'] + min;
    SplitSeconds(d);
    assert d == (h * 60 + m) * 60 + r;
    assert (h * 60 + m) * 60 == h * 3600 + m * 60;
  }

  /** Reading a rendered duration gives back its number of seconds. */
  lemma FormatSecondsRoundTrip(d: nat)
    ensures ReadUnits(FormatSeconds(d)) == Some(d)
  {
    if d < 60 {
      ReadSecondsGroup(d);
    } else if d < 3600 {
      ReadMinutesSeconds(d);
    } else {
      ReadHoursMinutesSeconds(d);
    }
  }

  /** Reading a rendered duration, sign included, gives it back. */
  lemma FormatDurationRoundTrip(d: int)
    ensures ReadDuration(FormatDuration(d)) == Some(d)
  {
    if d < 0 {
      FormatSecondsRoundTrip(-d);
      assert FormatDuration(d)[1..] == FormatSeconds(-d);
    } else {
      FormatSecondsRoundTrip(d);
    }
  }

  /** Distinct durations render differently. */
  lemma FormatDurationInjective(d1: int, d2: int)
    ensures FormatDuration(d1) == FormatDuration(d2) ==> d1 == d2
  {
    FormatDurationRoundTrip(d1);
    FormatDurationRoundTrip(d2);
  }

  lemma FormatDurationExamples()
    ensures FormatDuration(0) == "0s"
    ensures FormatDuration(10) == "10s"
    ensures FormatDuration(60) == "1m0s"
  {
    assert NatToDigits(1) == "1" && NatToDigits(0) == "0";
    assert NatToDigits(10) == NatToDigits(1) + [DigitChar(0)] == "10";
  }
}
