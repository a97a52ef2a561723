/** Indicators derived from the parsed tables: the selected source and its
    polling interval, the reach bar, the network-noise indicator (how far
    the selected source's regression standard deviation sits above the
    median of all sources) and the temperature/frequency coupling. */
module Diagnostics {
  import opened Wrappers
  import opened Numbers
  import opened Records

  // ---------- the selected source ----------

  predicate IsSelected(s: SourceRow) { '*' in s.ms }

  /** The first index at or after `i` whose source is selected. */
  function SelectedFrom(sources: seq<SourceRow>, i: nat): (k: Option<nat>)
    requires i <= |sources|
    ensures k.Some? ==> i <= k.value < |sources| && IsSelected(sources[k.value])
    ensures forall j :: i <= j < |sources| && (k.None? || j < k.value) ==> !IsSelected(sources[j])
    decreases |sources| - i
  {
    if i == |sources| then None
    else if IsSelected(sources[i]) then Some(i)
    else SelectedFrom(sources, i + 1)
  }

  /** The source both helpers report on: the first one marked `*`, or the
      first row when none is. */
  function SelectedIndex(sources: seq<SourceRow>): (k: nat)
    requires sources != []
    ensures k < |sources|
    ensures forall j :: 0 <= j < k ==> !IsSelected(sources[j])
    ensures IsSelected(sources[k]) || (k == 0 && forall j :: 0 <= j < |sources| ==> !IsSelected(sources[j]))
  {
    SelectedFrom(sources, 0).GetOr(0)
  }

  /** `selected_poll_seconds`: the name of the selected source and its
      polling interval `2 ** poll` in seconds. */
  function SelectedPollSeconds(sources: seq<SourceRow>): (r: (Option<string>, Option<real>))
    ensures sources == [] <==> r.0.None?
    ensures sources == [] ==> r.1.None?
    ensures sources != [] ==>
      var sel := sources[SelectedIndex(sources)];
      && r.0 == Some(sel.name)
      && (r.1.Some? <==> sel.poll.Some?)
      && (r.1.Some? ==> r.1.value == Pow2(sel.poll.value) && r.1.value > 0.0)
  {
    if sources == [] then (None, None)
    else
      var sel := sources[SelectedIndex(sources)];
      match sel.poll
      case None => (Some(sel.name), None)
      case Some(p) => (Some(sel.name), Some(Pow2(p)))
  }

  /** One more step of the poll exponent doubles the reported interval. */
  lemma PollIntervalDoubles(sources: seq<SourceRow>, p: int)
    requires sources != [] && sources[SelectedIndex(sources)].poll == Some(p)
    ensures var k := SelectedIndex(sources);
      SelectedPollSeconds(sources[k := sources[k].(poll := Some(p + 1))]).1
        == Some(2.0 * SelectedPollSeconds(sources).1.value)
  {
    var k := SelectedIndex(sources);
    var t := sources[k := sources[k].(poll := Some(p + 1))];
    assert forall j :: 0 <= j < |t| ==> (IsSelected(t[j]) <==> IsSelected(sources[j]));
    SelectedIndexSame(sources, t);
    Pow2Step(p);
  }

  lemma SelectedIndexSame(a: seq<SourceRow>, b: seq<SourceRow>)
    requires a != [] && |a| == |b|
    requires forall j :: 0 <= j < |a| ==> (IsSelected(a[j]) <==> IsSelected(b[j]))
    ensures SelectedIndex(a) == SelectedIndex(b)
  {
  }

  // ---------- reach bar ----------

  const FilledDot := '\U{25CF}'
  const EmptyDot := '\U{25CB}'

  function Dot(b: bool): char { if b then FilledDot else EmptyDot }

  /** The `n` low bits of `r`, least significant first. */
  function Bits(r: nat, n: nat): (bs: seq<bool>)
    ensures |bs| == n
  {
    if n == 0 then [] else [r % 2 == 1] + Bits(r / 2, n - 1)
  }

  function Reverse<T>(s: seq<T>): (r: seq<T>)
    ensures |r| == |s| && forall i :: 0 <= i < |s| ==> r[i] == s[|s| - 1 - i]
  {
    seq(|s|, i requires 0 <= i < |s| => s[|s| - 1 - i])
  }

  /** `reach_dots`: eight dots for the eight bits of the register, bit 7
      first when `newestLeft` (the default) and bit 0 first otherwise;
      eight question marks when the register is unknown. */
  function ReachDots(reach: Option<nat>, newestLeft: bool): (s: string)
    ensures |s| == 8
    ensures reach.None? ==> s == "????????"
    ensures reach.Some? ==> forall k :: 0 <= k < 8 ==> (s[k] == FilledDot || s[k] == EmptyDot)
  {
    match reach
    case None => "????????"
    case Some(r) =>
      var bits := Bits(r, 8);
      var order := if newestLeft then Reverse(bits) else bits;
      seq(8, k requires 0 <= k < 8 => Dot(order[k]))
  }

  function BitValue(b: bool): nat { if b then 1 else 0 }

  /** The number an LSB-first bit string spells. */
  function ValueLsbFirst(bs: seq<bool>): nat {
    if bs == [] then 0 else BitValue(bs[0]) + 2 * ValueLsbFirst(bs[1..])
  }

  function Pow2Nat(n: nat): (p: nat)
    ensures p >= 1
  {
    if n == 0 then 1 else 2 * Pow2Nat(n - 1)
  }

  lemma {:induction false} BitsRoundTrip(r: nat, n: nat)
    requires r < Pow2Nat(n)
    ensures ValueLsbFirst(Bits(r, n)) == r
  {
    if n > 0 {
      BitsRoundTrip(r / 2, n - 1);
      assert Bits(r, n)[1..] == Bits(r / 2, n - 1);
    }
  }

  /** The number the dots spell read as the display shows them. */
  function DotsValue(s: string, newestLeft: bool): nat {
    var bits := seq(|s|, k requires 0 <= k < |s| => s[k] == FilledDot);
    ValueLsbFirst(if newestLeft then Reverse(bits) else bits)
  }

  /** The bar loses nothing: an 8-bit register can be read back from its
      dots, in either orientation. */
  lemma ReachDotsRoundTrip(r: nat, newestLeft: bool)
    requires r < 256
    ensures DotsValue(ReachDots(Some(r), newestLeft), newestLeft) == r
  {
    var s := ReachDots(Some(r), newestLeft);
    var bits := Bits(r, 8);
    var order := if newestLeft then Reverse(bits) else bits;
    var back := seq(|s|, k requires 0 <= k < |s| => s[k] == FilledDot);
    forall k | 0 <= k < 8 ensures back[k] == order[k] {
      assert s[k] == Dot(order[k]);
    }
    assert back == order;
    if newestLeft {
      assert back == Reverse(bits);
      assert Reverse(back) == bits;
    } else {
      assert back == bits;
    }
    assert Pow2Nat(8) == 256;
    BitsRoundTrip(r, 8);
  }

  /** With the default orientation the most recent poll (bit 0 of the
      register) is the rightmost dot, not the leftmost. */
  lemma NewestPollIsRightmost()
    ensures ReachDots(Some(1), true) == [EmptyDot, EmptyDot, EmptyDot, EmptyDot, EmptyDot, EmptyDot, EmptyDot, FilledDot]
  {
    var bits := Bits(1, 8);
    BitsOfZero(7);
    assert bits == [true] + Bits(0, 7);
    var order := Reverse(bits);
    var s := ReachDots(Some(1), true);
    assert s == seq(8, k requires 0 <= k < 8 => Dot(order[k]));
    forall k | 0 <= k < 7 ensures s[k] == EmptyDot {
      assert order[k] == bits[7 - k] == false;
    }
    assert s[7] == FilledDot by {
      assert order[7] == bits[0] == true;
    }
  }

  lemma {:induction false} BitsOfZero(n: nat)
    ensures forall i :: 0 <= i < n ==> !Bits(0, n)[i]
  {
    if n > 0 {
      BitsOfZero(n - 1);
      assert Bits(0, n) == [false] + Bits(0, n - 1);
    }
  }

  // ---------- median ----------

  predicate Sorted(s: seq<real>) {
    forall i, j :: 0 <= i < j < |s| ==> s[i] <= s[j]
  }

  predicate AtLeast(lo: real, s: seq<real>) {
    forall i :: 0 <= i < |s| ==> lo <= s[i]
  }

  /** Insertion into a sorted sequence. */
  function Insert(x: real, s: seq<real>): (r: seq<real>)
    ensures |r| == |s| + 1
  {
    if s == [] then [x]
    else if x <= s[0] then [x] + s
    else [s[0]] + Insert(x, s[1..])
  }

  lemma {:induction false} InsertPermutes(x: real, s: seq<real>)
    ensures multiset(Insert(x, s)) == multiset(s) + multiset{x}
  {
    if s != [] && x > s[0] {
      InsertPermutes(x, s[1..]);
      assert s == [s[0]] + s[1..];
    }
  }

  lemma {:induction false} InsertAtLeast(lo: real, x: real, s: seq<real>)
    requires lo <= x && AtLeast(lo, s)
    ensures AtLeast(lo, Insert(x, s))
  {
    if s != [] && x > s[0] {
      InsertAtLeast(lo, x, s[1..]);
      var r := Insert(x, s);
      forall i | 0 <= i < |r| ensures lo <= r[i] {
        if i > 0 { assert r[i] == Insert(x, s[1..])[i - 1]; }
      }
    }
  }

  lemma {:induction false} InsertSorted(x: real, s: seq<real>)
    requires Sorted(s)
    ensures Sorted(Insert(x, s))
  {
    if s != [] && x > s[0] {
      var t := Insert(x, s[1..]);
      InsertSorted(x, s[1..]);
      InsertAtLeast(s[0], x, s[1..]);
      var r := [s[0]] + t;
      assert r == Insert(x, s);
      forall i, j | 0 <= i < j < |r| ensures r[i] <= r[j] {
        if i == 0 {
          assert r[j] == t[j - 1];
        } else {
          assert r[i] == t[i - 1] && r[j] == t[j - 1];
        }
      }
    } else if s != [] {
      var r := [x] + s;
      assert r == Insert(x, s);
      forall i, j | 0 <= i < j < |r| ensures r[i] <= r[j] {
        assert r[j] == s[j - 1] && s[0] <= s[j - 1];
        if i > 0 { assert r[i] == s[i - 1]; }
      }
    }
  }

  /** Insertion sort, the order the median is read from. */
  function Sort(s: seq<real>): (r: seq<real>)
    ensures |r| == |s|
  {
    if s == [] then [] else Insert(s[0], Sort(s[1..]))
  }

  lemma {:induction false} SortSortsAndPermutes(s: seq<real>)
    ensures Sorted(Sort(s)) && multiset(Sort(s)) == multiset(s)
  {
    if s != [] {
      SortSortsAndPermutes(s[1..]);
      InsertSorted(s[0], Sort(s[1..]));
      InsertPermutes(s[0], Sort(s[1..]));
      assert s == [s[0]] + s[1..];
    }
  }

  lemma SortedTail(a: seq<real>)
    requires a != [] && Sorted(a)
    ensures Sorted(a[1..])
  {
    forall i, j | 0 <= i < j < |a| - 1 ensures a[1..][i] <= a[1..][j] {
      assert a[1..][i] == a[i + 1] && a[1..][j] == a[j + 1];
    }
  }

  lemma SortedHeadIsLeast(a: seq<real>, x: real)
    requires a != [] && Sorted(a) && x in multiset(a)
    ensures a[0] <= x
  {
    assert x in a;
    var i :| 0 <= i < |a| && a[i] == x;
    if i > 0 { assert a[0] <= a[i]; }
  }

  /** Two sorted sequences with the same elements are equal. */
  lemma {:induction false} SortedUnique(a: seq<real>, b: seq<real>)
    requires Sorted(a) && Sorted(b) && multiset(a) == multiset(b)
    ensures a == b
    decreases |a|
  {
    assert |a| == |multiset(a)| == |multiset(b)| == |b|;
    if a != [] {
      SortedHeadIsLeast(b, a[0]);
      SortedHeadIsLeast(a, b[0]);
      assert a == [a[0]] + a[1..] && b == [b[0]] + b[1..];
      assert multiset(a) == multiset{a[0]} + multiset(a[1..]);
      assert multiset(b) == multiset{b[0]} + multiset(b[1..]);
      assert a[0] == b[0];
      assert multiset(a[1..]) == multiset(a) - multiset{a[0]};
      assert multiset(b[1..]) == multiset(b) - multiset{b[0]};
      SortedTail(a);
      SortedTail(b);
      SortedUnique(a[1..], b[1..]);
    }
  }

  /** `statistics.median`: the middle of the sorted values, or the mean of
      the two middle ones. */
  function Median(xs: seq<real>): real
    requires xs != []
  {
    var s := Sort(xs);
    var n := |s|;
    if n % 2 == 1 then s[n / 2] else (s[n / 2 - 1] + s[n / 2]) / 2.0
  }

  /** The median lies between two of the values. */
  lemma MedianBetweenValues(xs: seq<real>)
    requires xs != []
    ensures exists i, j :: 0 <= i < |xs| && 0 <= j < |xs| && xs[i] <= Median(xs) <= xs[j]
  {
    SortSortsAndPermutes(xs);
    var s := Sort(xs);
    var n := |s|;
    var lo := if n % 2 == 1 then n / 2 else n / 2 - 1;
    assert s[lo] <= s[n / 2];
    assert s[lo] <= Median(xs) <= s[n / 2];
    SortedElementIsValue(xs, lo);
    SortedElementIsValue(xs, n / 2);
  }

  lemma SortedElementIsValue(xs: seq<real>, k: nat)
    requires k < |xs|
    ensures exists i :: 0 <= i < |xs| && xs[i] == Sort(xs)[k]
  {
    SortSortsAndPermutes(xs);
    assert Sort(xs)[k] in multiset(Sort(xs));
    assert Sort(xs)[k] in xs;
  }

  /** The median depends only on the values, not their order. */
  lemma MedianOfPermutation(a: seq<real>, b: seq<real>)
    requires a != [] && multiset(a) == multiset(b)
    ensures b != [] && Median(a) == Median(b)
  {
    assert |a| == |multiset(a)| == |multiset(b)| == |b|;
    SortSortsAndPermutes(a);
    SortSortsAndPermutes(b);
    var sa, sb := Sort(a), Sort(b);
    assert multiset(sa) == multiset(sb);
    SortedUnique(sa, sb);
  }

  /** The median of equal values is that value. */
  lemma MedianOfConstant(xs: seq<real>, c: real)
    requires xs != [] && forall i :: 0 <= i < |xs| ==> xs[i] == c
    ensures Median(xs) == c
  {
    SortSortsAndPermutes(xs);
    var s := Sort(xs);
    forall i | 0 <= i < |s| ensures s[i] == c {
      assert s[i] in multiset(xs);
      assert s[i] in xs;
    }
  }

  // ---------- network noise ----------

  /** The regression standard deviations that are known, in source order. */
  function Stddevs(sources: seq<SourceRow>): (sds: seq<real>)
    ensures |sds| <= |sources|
    ensures forall x :: x in sds <==> exists s :: s in sources && s.ssStddev == Some(x)
  {
    if sources == [] then []
    else
      (match sources[0].ssStddev case Some(x) => [x] case None => [])
        + Stddevs(sources[1..])
  }

  /** The indices of the sources whose regression deviation is `x`. */
  function KnownAt(sources: seq<SourceRow>, x: real): set<nat> {
    set i: nat | i < |sources| && sources[i].ssStddev == Some(x)
  }

  lemma {:induction false} StddevsSnoc(sources: seq<SourceRow>, r: SourceRow)
    ensures Stddevs(sources + [r]) ==
      Stddevs(sources) + (match r.ssStddev case Some(x) => [x] case None => [])
    decreases |sources|
  {
    if sources == [] {
      assert [] + [r] == [r];
    } else {
      assert (sources + [r])[0] == sources[0];
      assert (sources + [r])[1..] == sources[1..] + [r];
      StddevsSnoc(sources[1..], r);
    }
  }

  lemma KnownAtSnoc(p: seq<SourceRow>, r: SourceRow, x: real)
    ensures KnownAt(p + [r], x) ==
      KnownAt(p, x) + (if r.ssStddev == Some(x) then {|p|} else {})
    ensures |p| !in KnownAt(p, x)
  {
    var s := p + [r];
    forall i: nat | i < |p| ensures s[i] == p[i] { }
  }

  /** Each known deviation occurs in `Stddevs` once for every source that
      has it, duplicates included, so the median sees the same values as
      the list comprehension builds. */
  lemma {:induction false} StddevsCount(sources: seq<SourceRow>, x: real)
    ensures multiset(Stddevs(sources))[x] == |KnownAt(sources, x)|
    decreases |sources|
  {
    if sources == [] {
      assert KnownAt(sources, x) == {};
    } else {
      var n := |sources| - 1;
      var p, r := sources[..n], sources[n];
      assert sources == p + [r];
      var last: seq<real> := match r.ssStddev case Some(y) => [y] case None => [];
      StddevsSnoc(p, r);
      assert multiset(Stddevs(sources)) == multiset(Stddevs(p)) + multiset(last);
      StddevsCount(p, x);
      KnownAtSnoc(p, r, x);
      if r.ssStddev == Some(x) {
        assert multiset(last)[x] == 1;
        assert |KnownAt(sources, x)| == |KnownAt(p, x)| + 1;
      } else {
        assert multiset(last)[x] == 0;
        assert KnownAt(sources, x) == KnownAt(p, x);
      }
    }
  }

  const NoiseFloor: real := 0.00005   // 50 microseconds

  datatype NoiseStatus = NoiseOk | Elevated | Outlier

  /** The noise verdict: the three reasons it cannot be computed, or the
      measurement (selected and median stddev in seconds, their ratio). */
  datatype Noise =
    | NoSources
    | NoSelectedStddev
    | TooFewStddevs
    | Measured(status: NoiseStatus, selSd: real, median: real, ratio: real)
  {
    function Severity(): Severity {
      match this
      case Measured(NoiseOk, _, _, _) => Ok
      case Measured(Outlier, _, _, _) => Critical
      case _ => Warn
    }

    /** Selected minus median, in milliseconds. */
    function GapMs(): real
      requires Measured?
    {
      selSd * 1000.0 - median * 1000.0
    }
  }

  function Max(a: real, b: real): real { if a >= b then a else b }

  /** `network_noise_indicator`. */
  function NetworkNoise(sources: seq<SourceRow>): (n: Noise)
    ensures n == NoSources <==> sources == []
    ensures !n.Measured? ==> n.Severity() == Warn
  {
    if sources == [] then NoSources
    else
      var sel := sources[SelectedIndex(sources)];
      match sel.ssStddev
      case None => NoSelectedStddev
      case Some(selSd) =>
        var sds := Stddevs(sources);
        if |sds| < 2 then TooFewStddevs
        else
          Measure(selSd, Median(sds))
  }

  /** The measurement for a selected deviation and the median: the ratio
      with the median floored, and the status the thresholds give. */
  function Measure(selSd: real, med: real): (n: Noise)
    ensures n.Measured? && n.selSd == selSd && n.median == med
    ensures n.ratio * Max(med, NoiseFloor) == selSd
  {
    var ratio := selSd / Max(med, NoiseFloor);
    QuotientTimesDivisor(selSd, Max(med, NoiseFloor));
    var gap := selSd * 1000.0 - med * 1000.0;
    var status :=
      if ratio >= 3.0 && gap >= 0.5 then Outlier
      else if ratio >= 2.0 && gap >= 0.2 then Elevated
      else NoiseOk;
    Measured(status, selSd, med, ratio)
  }

  /** Why no measurement is made: no sources, no deviation for the selected
      source, or fewer than two deviations overall. */
  lemma NoiseUnmeasured(sources: seq<SourceRow>)
    ensures var n := NetworkNoise(sources);
      && (n == NoSelectedStddev <==> sources != [] && sources[SelectedIndex(sources)].ssStddev.None?)
      && (n == TooFewStddevs <==>
            sources != [] && sources[SelectedIndex(sources)].ssStddev.Some? && |Stddevs(sources)| < 2)
  {
  }

  /** What a measurement reports: the selected source's deviation and the
      median of all known deviations, measured as `Measure` does. */
  lemma NoiseMeasurement(sources: seq<SourceRow>)
    requires NetworkNoise(sources).Measured?
    ensures var n := NetworkNoise(sources);
      && sources != [] && |Stddevs(sources)| >= 2
      && Some(n.selSd) == sources[SelectedIndex(sources)].ssStddev
      && n == Measure(n.selSd, Median(Stddevs(sources)))
  {
  }

  lemma QuotientTimesDivisor(a: real, d: real)
    requires d >= NoiseFloor
    ensures (a / d) * d == a
  {
  }

  /** The status thresholds: OUTLIER needs ratio >= 3 and a gap of at least
      0.5 ms, ELEVATED ratio >= 2 and 0.2 ms, and only OUTLIER is red. */
  lemma NoiseThresholds(sources: seq<SourceRow>)
    requires NetworkNoise(sources).Measured?
    ensures var n := NetworkNoise(sources);
      && (n.status == Outlier <==> n.ratio >= 3.0 && n.GapMs() >= 0.5)
      && (n.status == Elevated <==> !(n.ratio >= 3.0 && n.GapMs() >= 0.5) && n.ratio >= 2.0 && n.GapMs() >= 0.2)
      && (n.Severity() == Critical <==> n.status == Outlier)
  {
  }

  /** A selected source no noisier than the median is never flagged. */
  lemma QuietSelectedIsOk(sources: seq<SourceRow>)
    requires NetworkNoise(sources).Measured?
    requires NetworkNoise(sources).selSd <= NetworkNoise(sources).median
    ensures NetworkNoise(sources).status == NoiseOk
  {
  }

  /** When every source with statistics reports the same deviation, the
      network looks quiet. */
  lemma UniformNoiseIsOk(sources: seq<SourceRow>, c: real)
    requires NetworkNoise(sources).Measured?
    requires forall i :: 0 <= i < |sources| && sources[i].ssStddev.Some? ==> sources[i].ssStddev.value == c
    ensures NetworkNoise(sources).status == NoiseOk
  {
    var sds := Stddevs(sources);
    forall i | 0 <= i < |sds| ensures sds[i] == c {
      assert sds[i] in sds;
      var s :| s in sources && s.ssStddev == Some(sds[i]);
    }
    MedianOfConstant(sds, c);
  }

  // ---------- temperature / frequency coupling ----------

  datatype Coupling =
    | NoCouplingData
    | Stable
    | BothUp(dt: real, df: real)
    | BothDown(dt: real, df: real)
    | Diverge(dt: real, df: real)
  {
    function Severity(): Severity {
      match this
      case NoCouplingData => Warn
      case Diverge(_, _) => Warn
      case _ => Ok
    }
  }

  /** Python's `h[-n]` for `0 <= n <= |h|`: `h[-0]` is the first element. */
  function FromEnd(h: seq<real>, n: nat): real
    requires 0 < |h| && n <= |h|
  {
    if n == 0 then h[0] else h[|h| - n]
  }

  function Min3(a: nat, b: nat, c: nat): (m: nat)
    ensures m <= a && m <= b && m <= c && (m == a || m == b || m == c)
  {
    if a <= b && a <= c then a else if b <= c then b else c
  }

  /** `temp_freq_coupling`: compare the change of temperature and of
      frequency over the last `window` samples of both histories. */
  function TempFreqCoupling(temps: seq<real>, freqs: seq<real>, window: nat): (c: Coupling)
    ensures c == NoCouplingData <==> |temps| < 3 || |freqs| < 3
    ensures c.Severity() == Ok <==> !c.NoCouplingData? && !c.Diverge?
  {
    if |temps| < 3 || |freqs| < 3 then NoCouplingData
    else
      var (dt, df) := Deltas(temps, freqs, window);
      if Abs(dt) < 0.2 && Abs(df) < 0.2 then Stable
      else if dt > 0.2 && df > 0.2 then BothUp(dt, df)
      else if dt < -0.2 && df < -0.2 then BothDown(dt, df)
      else Diverge(dt, df)
  }

  /** The change of temperature and frequency the coupling compares. */
  function Deltas(temps: seq<real>, freqs: seq<real>, window: nat): (real, real)
    requires |temps| >= 3 && |freqs| >= 3
  {
    var n := Min3(window, |temps|, |freqs|);
    (temps[|temps| - 1] - FromEnd(temps, n), freqs[|freqs| - 1] - FromEnd(freqs, n))
  }

  /** The verdict as a function of the two changes: stable when both are
      small, coupled when both move the same way by more than 0.2, and
      diverging otherwise. */
  lemma CouplingClassifies(temps: seq<real>, freqs: seq<real>, window: nat)
    requires |temps| >= 3 && |freqs| >= 3
    ensures var (dt, df) := Deltas(temps, freqs, window); var c := TempFreqCoupling(temps, freqs, window);
      && (c == Stable <==> Abs(dt) < 0.2 && Abs(df) < 0.2)
      && (c.BothUp? <==> dt > 0.2 && df > 0.2)
      && (c.BothDown? <==> dt < -0.2 && df < -0.2)
      && (c.Diverge? <==> !(Abs(dt) < 0.2 && Abs(df) < 0.2) && !(dt > 0.2 && df > 0.2) && !(dt < -0.2 && df < -0.2))
  {
  }

  function Negated(h: seq<real>): (r: seq<real>)
    ensures |r| == |h| && forall i :: 0 <= i < |h| ==> r[i] == -h[i]
  {
    seq(|h|, i requires 0 <= i < |h| => -h[i])
  }

  /** Mirroring both histories swaps "both up" and "both down" and keeps the
      other verdicts. */
  lemma CouplingMirror(temps: seq<real>, freqs: seq<real>, window: nat)
    ensures var c := TempFreqCoupling(temps, freqs, window);
      var m := TempFreqCoupling(Negated(temps), Negated(freqs), window);
      && (c.BothUp? <==> m.BothDown?) && (c.BothDown? <==> m.BothUp?)
      && (c == Stable <==> m == Stable) && (c.Diverge? <==> m.Diverge?)
      && (c == NoCouplingData <==> m == NoCouplingData)
  {
  }

  /** A temperature change of exactly 0.2 is neither stable nor rising, so
      against a rising frequency it reads as diverging. */
  lemma CouplingBoundary()
    ensures TempFreqCoupling([0.0, 0.0, 0.2], [1.0, 1.0, 1.5], 20).Diverge?
  {
    assert Min3(20, 3, 3) == 3;
  }
}
