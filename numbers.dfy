/** Number syntax used by the monitor's parsers: Python's `int()` and
    `float()` on a single token, octal registers, the regular expression
    `[+\-]?\d+(?:\.\d+)?` followed by a time unit, the conversion of a unit to
    seconds, span literals such as `15m`, and powers of two for the poll
    exponent. Values are exact: `nat`/`int` for integers and `real` for what
    Python holds as `float`. */
module Numbers {
  import opened Wrappers
  import Text

  predicate IsDigit(c: char) { '0' <= c <= '9' }

  predicate IsOctalDigit(c: char) { '0' <= c <= '7' }

  predicate AllDigits(s: string) {
    forall i :: 0 <= i < |s| ==> IsDigit(s[i])
  }

  predicate AllOctal(s: string) {
    forall i :: 0 <= i < |s| ==> IsOctalDigit(s[i])
  }

  function DigitVal(c: char): (d: nat)
    requires IsDigit(c)
    ensures d < 10
  {
    c as int - '0' as int
  }

  function DigitChar(d: nat): (c: char)
    requires d < 10
    ensures IsDigit(c) && DigitVal(c) == d
  {
    ('0' as int + d) as char
  }

  function Pow10(n: nat): (p: nat)
    ensures p >= 1
  {
    if n == 0 then 1 else 10 * Pow10(n - 1)
  }

  /** The value of a string of decimal digits, most significant first. */
  function DecimalValue(ds: string): nat
    requires AllDigits(ds)
  {
    if ds == [] then 0 else 10 * DecimalValue(ds[..|ds| - 1]) + DigitVal(ds[|ds| - 1])
  }

  /** The decimal rendering of `n` without leading zeros (`str(n)`). */
  function DecimalText(n: nat): (s: string)
    ensures s != [] && AllDigits(s)
  {
    if n < 10 then [DigitChar(n)] else DecimalText(n / 10) + [DigitChar(n % 10)]
  }

  lemma {:induction false} DecimalRoundTrip(n: nat)
    ensures DecimalValue(DecimalText(n)) == n
  {
    if n >= 10 {
      var s := DecimalText(n);
      assert s[..|s| - 1] == DecimalText(n / 10);
      DecimalRoundTrip(n / 10);
    }
  }

  /** The value of a string of octal digits, as `int(s, 8)` computes it. */
  function OctalValue(ds: string): nat
    requires AllOctal(ds)
  {
    if ds == [] then 0 else 8 * OctalValue(ds[..|ds| - 1]) + (ds[|ds| - 1] as int - '0' as int)
  }

  /** The octal rendering of `n` (`"%o" % n`), the way the time daemon
      prints a reachability register. */
  function OctalText(n: nat): (s: string)
    ensures s != [] && AllOctal(s)
  {
    var c := ('0' as int + n % 8) as char;
    if n < 8 then [c] else OctalText(n / 8) + [c]
  }

  /** Decoding the printed octal form of a register gives the register back. */
  lemma {:induction false} OctalRoundTrip(n: nat)
    ensures OctalValue(OctalText(n)) == n
  {
    if n >= 8 {
      var s := OctalText(n);
      assert s[..|s| - 1] == OctalText(n / 8);
      OctalRoundTrip(n / 8);
    }
  }

  /** A run of `k` octal digits denotes a number below `8^k`; in particular a
      three-digit register is at most 0o777. */
  lemma {:induction false} OctalValueBound(ds: string)
    requires AllOctal(ds)
    ensures OctalValue(ds) < Pow8(|ds|)
  {
    if ds != [] {
      OctalValueBound(ds[..|ds| - 1]);
    }
  }

  function Pow8(n: nat): (p: nat)
    ensures p >= 1
  {
    if n == 0 then 1 else 8 * Pow8(n - 1)
  }

  // ---------- Python int() on a token ----------

  /** The token without a leading `+` or `-`. */
  function Unsigned(t: string): (b: string)
    ensures |b| <= |t| && b == t[|t| - |b|..]
  {
    if |t| > 0 && (t[0] == '+' || t[0] == '-') then t[1..] else t
  }

  function DropUnderscores(b: string): (r: string)
    ensures (forall i :: 0 <= i < |b| ==> IsDigit(b[i]) || b[i] == '_') ==> AllDigits(r)
    ensures AllDigits(b) ==> r == b
  {
    if b == [] then []
    else if b[0] == '_' then DropUnderscores(b[1..])
    else [b[0]] + DropUnderscores(b[1..])
  }

  /** The tokens Python's `int()` accepts (the tokens never carry surrounding
      whitespace): an optional sign, then ASCII digits in groups joined by
      single underscores. */
  predicate IsIntText(t: string) {
    var b := Unsigned(t);
    && b != [] && IsDigit(b[0]) && IsDigit(b[|b| - 1])
    && (forall i :: 0 <= i < |b| ==> IsDigit(b[i]) || b[i] == '_')
    && (forall i :: 0 <= i < |b| - 1 ==> b[i] == '_' ==> b[i + 1] != '_')
  }

  /** `int(t)` when it succeeds, `None` where Python raises `ValueError` and
      the parsers store `None` instead. */
  function PyInt(t: string): (r: Option<int>)
    ensures r.Some? <==> IsIntText(t)
  {
    if IsIntText(t) then
      var v: int := DecimalValue(DropUnderscores(Unsigned(t)));
      Some(if t[0] == '-' then -v else v)
    else None
  }

  /** `int(str(n))` and `int("-" + str(n))` give `n` and `-n` back. */
  lemma IntRoundTrip(n: nat)
    ensures PyInt(DecimalText(n)) == Some(n as int)
    ensures PyInt("-" + DecimalText(n)) == Some(-(n as int))
  {
    DecimalRoundTrip(n);
    IntOfDigits(DecimalText(n));
  }

  lemma IntOfDigits(s: string)
    requires s != [] && AllDigits(s)
    ensures PyInt(s) == Some(DecimalValue(s) as int)
    ensures PyInt("-" + s) == Some(-(DecimalValue(s) as int))
  {
    PlainIntOfDigits(s);
    NegatedIntOfDigits(s, "-" + s);
  }

  lemma PlainIntOfDigits(s: string)
    requires s != [] && AllDigits(s)
    ensures PyInt(s) == Some(DecimalValue(s) as int)
  {
    assert IsDigit(s[0]);
    assert Unsigned(s) == s;
    DigitsAreIntText(s);
  }

  lemma NegatedIntOfDigits(s: string, t: string)
    requires s != [] && AllDigits(s) && t == "-" + s
    ensures PyInt(t) == Some(-(DecimalValue(s) as int))
  {
    assert t[0] == '-' && t[1..] == s;
    assert Unsigned(t) == s;
    DigitsAreIntText(t);
  }

  /** A token whose unsigned part is all digits is read as that number,
      negated after a minus sign. */
  lemma DigitsAreIntText(t: string)
    requires Unsigned(t) != [] && AllDigits(Unsigned(t))
    ensures PyInt(t) == Some(if t[0] == '-' then -(DecimalValue(Unsigned(t)) as int) else DecimalValue(Unsigned(t)) as int)
  {
    var b := Unsigned(t);
    assert IsDigit(b[0]) && IsDigit(b[|b| - 1]);
    assert IsIntText(t);
    assert DropUnderscores(b) == b;
  }

  // ---------- Python float() on a token ----------

  /** Position of the first `.` in `b`, or `|b|` when there is none. */
  function DotIndex(b: string): (k: nat)
    ensures k <= |b| && (k < |b| ==> b[k] == '.')
    ensures forall i :: 0 <= i < k ==> b[i] != '.'
  {
    if b == [] || b[0] == '.' then 0 else 1 + DotIndex(b[1..])
  }

  /** The value `ip.fp` of a decimal fraction written with digit strings
      `ip` before and `fp` after the point. */
  function Fraction(ip: string, fp: string): (v: real)
    requires AllDigits(ip) && AllDigits(fp)
    ensures v >= 0.0
  {
    DecimalValue(ip) as real + DecimalValue(fp) as real / Pow10(|fp|) as real
  }

  /** An unsigned decimal literal: digits, with at most one point, and at
      least one digit on some side of it (`12`, `12.`, `.5`, `12.50`). */
  function DecimalMagnitude(b: string): (m: Option<real>)
    ensures m.Some? ==> m.value >= 0.0
  {
    var k := DotIndex(b);
    if k == |b| then
      if b != [] && AllDigits(b) then Some(DecimalValue(b) as real) else None
    else
      var ip, fp := b[..k], b[k + 1..];
      if AllDigits(ip) && AllDigits(fp) && (ip != [] || fp != []) then Some(Fraction(ip, fp)) else None
  }

  /** `float(t)` for a token in plain decimal notation with an optional
      sign; every other token gives `None`. */
  function PyFloat(t: string): (r: Option<real>)
    ensures r.Some? && |t| > 0 && t[0] == '-' ==> r.value <= 0.0
    ensures r.Some? && !(|t| > 0 && t[0] == '-') ==> r.value >= 0.0
  {
    match DecimalMagnitude(Unsigned(t))
    case None => None
    case Some(m) => Some(if |t| > 0 && t[0] == '-' then -m else m)
  }

  /** `float(str(n))` is `n`, with or without a leading minus sign. */
  lemma FloatOfInteger(n: nat)
    ensures PyFloat(DecimalText(n)) == Some(n as real)
    ensures PyFloat("-" + DecimalText(n)) == Some(-(n as real))
  {
    var s := DecimalText(n);
    DecimalRoundTrip(n);
    PlainFloatOfDigits(s);
    NegatedFloatOfDigits(s, "-" + s);
  }

  lemma PlainFloatOfDigits(s: string)
    requires s != [] && AllDigits(s)
    ensures PyFloat(s) == Some(DecimalValue(s) as real)
  {
    assert IsDigit(s[0]);
    assert Unsigned(s) == s;
    MagnitudeOfDigits(s);
  }

  lemma NegatedFloatOfDigits(s: string, t: string)
    requires s != [] && AllDigits(s) && t == "-" + s
    ensures PyFloat(t) == Some(-(DecimalValue(s) as real))
  {
    assert t[0] == '-' && t[1..] == s;
    assert Unsigned(t) == s;
    MagnitudeOfDigits(s);
  }

  /** A run of digits without a point is an integer. */
  lemma MagnitudeOfDigits(s: string)
    requires s != [] && AllDigits(s)
    ensures DecimalMagnitude(s) == Some(DecimalValue(s) as real)
  {
    NoDotInDigits(s);
  }

  lemma NoDotInDigits(s: string)
    requires AllDigits(s)
    ensures DotIndex(s) == |s|
  {
  }

  // ---------- the number-with-unit regular expression ----------

  /** A match of `[+\-]?\d+(?:\.\d+)?`: the value it denotes and the index
      just past it. */
  datatype Matched = Matched(value: real, end: nat)

  /** A match of a number followed by a time unit: the value in seconds, the
      index where the unit starts and the index just past it. */
  datatype Quantity = Quantity(value: real, numEnd: nat, end: nat)

  /** Number of consecutive decimal digits in `s` from index `j`. */
  function DigitRun(s: string, j: nat): (d: nat)
    requires j <= |s|
    ensures j + d <= |s|
    ensures forall k :: j <= k < j + d ==> IsDigit(s[k])
    ensures j + d < |s| ==> !IsDigit(s[j + d])
    ensures d == 0 <==> !(j < |s| && IsDigit(s[j]))
    decreases |s| - j
  {
    if j < |s| && IsDigit(s[j]) then 1 + DigitRun(s, j + 1) else 0
  }

  lemma RunIsDigits(s: string, j: nat)
    requires j <= |s|
    ensures AllDigits(s[j..j + DigitRun(s, j)])
  {
    var r := s[j..j + DigitRun(s, j)];
    assert forall k :: 0 <= k < |r| ==> r[k] == s[j + k];
  }

  /** The index just past the optional sign at `i`. */
  function SignEnd(s: string, i: nat): (j: nat)
    requires i <= |s|
    ensures i <= j <= |s| && (j == i + 1 <==> i < |s| && (s[i] == '+' || s[i] == '-'))
  {
    if i < |s| && (s[i] == '+' || s[i] == '-') then i + 1 else i
  }

  /** The length of the fraction digits after a point at index `e`, 0 when
      there is no point followed by a digit. */
  function FractionRun(s: string, e: nat): (f: nat)
    requires e <= |s|
    ensures f > 0 ==> e + 1 + f <= |s| && s[e] == '.' && AllDigits(s[e + 1..e + 1 + f])
  {
    if e < |s| && s[e] == '.' then RunIsDigits(s, e + 1); DigitRun(s, e + 1) else 0
  }

  /** The index just past a number whose integer digits end at `e` and that
      has `f` fraction digits. */
  function NumberEnd(e: nat, f: nat): nat {
    if f == 0 then e else e + 1 + f
  }

  /** The value of the number with sign at `i`, integer digits `s[j..e]` and
      `f` fraction digits after the point at `e`. */
  function NumberValue(s: string, i: nat, j: nat, e: nat, f: nat): real
    requires i <= j <= e <= |s| && AllDigits(s[j..e])
    requires f > 0 ==> e + 1 + f <= |s| && AllDigits(s[e + 1..e + 1 + f])
  {
    var mag := NumberMagnitude(s, j, e, f);
    if j == i + 1 && s[i] == '-' then -mag else mag
  }

  /** The unsigned value of integer digits `s[j..e]` and `f` fraction
      digits after the point at `e`. */
  function NumberMagnitude(s: string, j: nat, e: nat, f: nat): real
    requires j <= e <= |s| && AllDigits(s[j..e])
    requires f > 0 ==> e + 1 + f <= |s| && AllDigits(s[e + 1..e + 1 + f])
  {
    if f == 0 then DecimalValue(s[j..e]) as real else Fraction(s[j..e], s[e + 1..e + 1 + f])
  }

  /** `[+\-]?\d+(?:\.\d+)?` matched at index `i` of `s`. Every part is taken
      as long as possible; giving a part back never lets the rest of the
      patterns used here match, so backtracking cannot change the outcome. */
  function MatchNumber(s: string, i: nat): (m: Option<Matched>)
    requires i <= |s|
    ensures m.None? <==> !(SignEnd(s, i) < |s| && IsDigit(s[SignEnd(s, i)]))
    ensures m.Some? ==> i < m.value.end <= |s|
    ensures m.Some? ==> IsDigit(s[m.value.end - 1])
    ensures m.Some? && m.value.end < |s| ==> !IsDigit(s[m.value.end])
  {
    var j := SignEnd(s, i);
    var d := DigitRun(s, j);
    if d == 0 then None
    else
      var e := j + d;
      RunIsDigits(s, j);
      var f := FractionRun(s, e);
      Some(Matched(NumberValue(s, i, j, e, f), NumberEnd(e, f)))
  }

  /** The value of a number match is what `float()` makes of the matched
      text, as `float(m.group(1))` reads it. */
  lemma MatchIsFloat(s: string, i: nat)
    requires i <= |s| && MatchNumber(s, i).Some?
    ensures PyFloat(s[i..MatchNumber(s, i).value.end]) == Some(MatchNumber(s, i).value.value)
  {
    var j := SignEnd(s, i);
    var e := j + DigitRun(s, j);
    RunIsDigits(s, j);
    var f := FractionRun(s, e);
    assert MatchNumber(s, i) == Some(Matched(NumberValue(s, i, j, e, f), NumberEnd(e, f)));
    NumberIsFloat(s, i, j, e, f);
  }

  /** The text that a number match covers (sign, integer digits, and a point
      with fraction digits when `f > 0`) is read by `float()` as the value
      the match computes. */
  lemma NumberIsFloat(s: string, i: nat, j: nat, e: nat, f: nat)
    requires i <= |s| && j == SignEnd(s, i) && j < e <= |s| && AllDigits(s[j..e])
    requires f > 0 ==> e + 1 + f <= |s| && s[e] == '.' && AllDigits(s[e + 1..e + 1 + f])
    ensures PyFloat(s[i..NumberEnd(e, f)]) == Some(NumberValue(s, i, j, e, f))
  {
    var end := NumberEnd(e, f);
    var t := s[i..end];
    var b := s[j..end];
    UnsignedOfNumber(s, i, j, end);
    var mag := NumberMagnitude(s, j, e, f);
    MagnitudeOfNumber(s, j, e, f);
    FloatOfMagnitude(t, b, mag);
  }

  /** The unsigned text of a number match is read as its magnitude. */
  lemma MagnitudeOfNumber(s: string, j: nat, e: nat, f: nat)
    requires j < e <= |s| && AllDigits(s[j..e])
    requires f > 0 ==> e + 1 + f <= |s| && s[e] == '.' && AllDigits(s[e + 1..e + 1 + f])
    ensures DecimalMagnitude(s[j..NumberEnd(e, f)]) == Some(NumberMagnitude(s, j, e, f))
  {
    if f == 0 {
      MagnitudeOfDigits(s[j..e]);
    } else {
      MagnitudeOfFraction(s, j, e, f);
    }
  }

  /** `float()` puts the sign back on the magnitude of the unsigned text. */
  lemma FloatOfMagnitude(t: string, b: string, mag: real)
    requires Unsigned(t) == b && DecimalMagnitude(b) == Some(mag)
    ensures PyFloat(t) == Some(if |t| > 0 && t[0] == '-' then -mag else mag)
  {
  }

  /** The sign of a number match is what `Unsigned` drops. */
  lemma UnsignedOfNumber(s: string, i: nat, j: nat, end: nat)
    requires i <= j < end <= |s| && j == SignEnd(s, i) && IsDigit(s[j])
    ensures Unsigned(s[i..end]) == s[j..end]
    ensures (s[i..end][0] == '-') == (i < j && s[i] == '-')
  {
    var t := s[i..end];
    assert t[0] == s[i];
  }

  /** Digits, a point and digits form a decimal fraction. */
  lemma MagnitudeOfFraction(s: string, j: nat, e: nat, f: nat)
    requires j < e && e + 1 + f <= |s| && f > 0 && s[e] == '.'
    requires AllDigits(s[j..e]) && AllDigits(s[e + 1..e + 1 + f])
    ensures DecimalMagnitude(s[j..e + 1 + f]) == Some(Fraction(s[j..e], s[e + 1..e + 1 + f]))
  {
    var b := s[j..e + 1 + f];
    var k := e - j;
    assert b[k] == '.';
    assert forall q :: 0 <= q < k ==> b[q] == s[j..e][q];
    assert DotIndex(b) == k;
    assert b[..k] == s[j..e] && b[k + 1..] == s[e + 1..e + 1 + f];
  }

  predicate IsUnit(u: string) {
    u == "ns" || u == "us" || u == "ms" || u == "s"
  }

  /** `(ns|us|ms|s)` at index `p`: a unit found is one of the alternatives
      and occurs at `p`; `None` means that none of them occurs there. */
  function UnitAt(s: string, p: nat): (u: Option<string>)
    ensures u.Some? ==> IsUnit(u.value) && p + |u.value| <= |s| && s[p..p + |u.value|] == u.value
    ensures u.None? ==> forall v :: IsUnit(v) ==> !(p + |v| <= |s| && s[p..p + |v|] == v)
  {
    if p + 2 <= |s| && (s[p..p + 2] == "ns" || s[p..p + 2] == "us" || s[p..p + 2] == "ms") then
      Some(s[p..p + 2])
    else if p < |s| && s[p] == 's' then
      assert s[p..p + 1] == "s";
      Some("s")
    else None
  }

  /** `([+\-]?\d+(?:\.\d+)?)(ns|us|ms|s)` at index `i`: the value is
      `_to_seconds(float(group 1), group 2)`. */
  function MatchQuantity(s: string, i: nat): (q: Option<Quantity>)
    requires i <= |s|
    ensures q.Some? ==> i < q.value.numEnd < q.value.end <= |s| && IsUnit(s[q.value.numEnd..q.value.end])
  {
    match MatchNumber(s, i)
    case None => None
    case Some(n) =>
      match UnitAt(s, n.end)
      case None => None
      case Some(u) =>
        var end := n.end + |u|;
        assert s[n.end..end] == u;
        Some(Quantity(ToSeconds(n.value, u), n.end, end))
  }

  /** A quantity match is `_to_seconds(float(group 1), group 2)` of the
      number text and the unit text it covers. */
  lemma QuantityIsSeconds(s: string, i: nat)
    requires i <= |s| && MatchQuantity(s, i).Some?
    ensures var q := MatchQuantity(s, i).value;
      PyFloat(s[i..q.numEnd]).Some? && q.value == ToSeconds(PyFloat(s[i..q.numEnd]).value, s[q.numEnd..q.end])
  {
    var n := MatchNumber(s, i).value;
    var u := UnitAt(s, n.end).value;
    var q := MatchQuantity(s, i).value;
    assert q == Quantity(ToSeconds(n.value, u), n.end, n.end + |u|);
    assert s[q.numEnd..q.end] == u;
    MatchIsFloat(s, i);
    assert PyFloat(s[i..q.numEnd]) == Some(n.value);
  }

  /** ASCII lower-casing, which is all `unit.lower()` ever meets here. */
  function LowerAscii(s: string): (r: string)
    ensures |r| == |s|
  {
    if s == [] then []
    else [if 'A' <= s[0] <= 'Z' then (s[0] as int + 32) as char else s[0]] + LowerAscii(s[1..])
  }

  /** `_to_seconds`: a magnitude in seconds, milliseconds, microseconds or
      nanoseconds converted to seconds; an unknown unit leaves it as is. */
  function ToSeconds(value: real, unit: string): (r: real)
    ensures LowerAscii(unit) == "ms" ==> r * 1000.0 == value
    ensures LowerAscii(unit) == "us" ==> r * 1000000.0 == value
    ensures LowerAscii(unit) == "ns" ==> r * 1000000000.0 == value
    ensures !(LowerAscii(unit) in ["ms", "us", "ns"]) ==> r == value
    ensures (r < 0.0 <==> value < 0.0) && (r == 0.0 <==> value == 0.0)
  {
    var u := LowerAscii(unit);
    if u == "s" then value
    else if u == "ms" then value / 1000.0
    else if u == "us" then value / 1000000.0
    else if u == "ns" then value / 1000000000.0
    else value
  }

  // ---------- span literals ----------

  /** A count of the unit `u` (`s`, `m`, `h` or `d`) in seconds. */
  function SpanValue(count: nat, u: char): (r: real)
    ensures r >= 0.0
  {
    count as real * (if u == 'm' then 60.0 else if u == 'h' then 3600.0 else if u == 'd' then 86400.0 else 1.0)
  }

  /** The tokens `^(\d+)([smhd])?$` matches: a count of digits, with or
      without one unit letter after it. */
  predicate IsSpanText(t: string) {
    || (t != [] && AllDigits(t))
    || (|t| >= 2 && AllDigits(t[..|t| - 1]) && t[|t| - 1] in "smhd")
  }

  /** `_parse_span_seconds`: `^(\d+)([smhd])?$` on the stripped token, the
      count scaled by 1, 60, 3600 or 86400; `None` for an empty or
      non-matching token. */
  function SpanSeconds(s: string): (r: Option<real>)
    ensures r.Some? <==> s != [] && IsSpanText(Text.Strip(s))
    ensures r.Some? ==> r.value >= 0.0
  {
    if s == [] then None else SpanOfStripped(Text.Strip(s))
  }

  /** The match of `^(\d+)([smhd])?$` on an already stripped token. */
  function SpanOfStripped(t: string): (r: Option<real>)
    ensures r.Some? <==> IsSpanText(t)
    ensures r.Some? ==> r.value >= 0.0
  {
    if t != [] && AllDigits(t) then Some(DecimalValue(t) as real)
    else if |t| >= 2 && AllDigits(t[..|t| - 1]) && t[|t| - 1] in "smhd" then
      Some(SpanValue(DecimalValue(t[..|t| - 1]), t[|t| - 1]))
    else None
  }

  /** A span printed as a bare count reads back as that many seconds. */
  lemma SpanOfCount(n: nat)
    ensures SpanSeconds(DecimalText(n)) == Some(n as real)
  {
    var d := DecimalText(n);
    DecimalRoundTrip(n);
    assert IsDigit(d[0]) && IsDigit(d[|d| - 1]);
    Text.StripOfTrimmed(d);
  }

  /** A run of digits followed by a unit letter reads back as that many
      seconds, minutes, hours or days. */
  lemma SpanOfDigitsWithUnit(d: string, u: char)
    requires d != [] && AllDigits(d)
    requires u == 's' || u == 'm' || u == 'h' || u == 'd'
    ensures SpanSeconds(d + [u]) == Some(SpanValue(DecimalValue(d), u))
  {
    var t := d + [u];
    StrippedSpanWithUnit(d, u);
    assert t[0] == d[0] && IsDigit(d[0]);
    assert t[|t| - 1] == u;
    Text.StripOfTrimmed(t);
  }

  lemma StrippedSpanWithUnit(d: string, u: char)
    requires d != [] && AllDigits(d)
    requires u == 's' || u == 'm' || u == 'h' || u == 'd'
    ensures SpanOfStripped(d + [u]) == Some(SpanValue(DecimalValue(d), u))
  {
    var t := d + [u];
    var body, last := t[..|t| - 1], t[|t| - 1];
    assert body == d && last == u && |t| >= 2;
    assert !AllDigits(t) by { assert !IsDigit(last); }
    assert last in "smhd";
    assert SpanOfStripped(t) == Some(SpanValue(DecimalValue(body), last));
  }

  /** Python's `abs` on a float. */
  function Abs(x: real): (r: real)
    ensures r >= 0.0 && (r == x || r == -x)
  {
    if x < 0.0 then -x else x
  }

  // ---------- powers of two ----------

  /** `2 ** p` for an integer exponent; a negative poll exponent gives a
      fraction of a second, as Python's `**` does. */
  function Pow2(p: int): (r: real)
    ensures r > 0.0
    decreases if p < 0 then -p else p
  {
    if p == 0 then 1.0 else if p > 0 then 2.0 * Pow2(p - 1) else Pow2(p + 1) / 2.0
  }

  /** Raising the poll exponent by one doubles the interval. */
  lemma {:induction false} Pow2Step(p: int)
    ensures Pow2(p + 1) == 2.0 * Pow2(p)
    decreases if p < 0 then -p else p
  {
    if p < -1 {
      Pow2Step(p + 1);
    }
  }
}
