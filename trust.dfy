/** `source_trust`: a 0..100 score for one upstream source, built from an
    ordered list of deductions and bonuses, plus the flags those rules
    raise and a three-tier severity. */
module Trust {
  import opened Wrappers
  import opened Records
  import opened Numbers

  /** The flags, in the order the rules can raise them. */
  datatype Flag =
    | Unreach | Bad | TooVar
    | NoReach | ReachZero | LowReach
    | NoRx | Stale | Aging
    | OffOver50ms | OffOver10ms | NoOffset
    | ErrOver100ms | ErrOver50ms | ErrOver10ms
    | NoStddev | SdOver15ms | SdOver5ms | SdOver1ms
    | FskewOver2 | FskewOver1
    | HighStratum
  {
    /** The flag as the display shows it. */
    function Text(): string {
      match this
      case Unreach => "UNREACH"
      case Bad => "BAD"
      case TooVar => "TOO_VAR"
      case NoReach => "NO_RCH"
      case ReachZero => "RCH=0"
      case LowReach => "LOW_RCH"
      case NoRx => "NO_RX"
      case Stale => "STALE"
      case Aging => "AGING"
      case OffOver50ms => "OFF>50ms"
      case OffOver10ms => "OFF>10ms"
      case NoOffset => "NO_OFF"
      case ErrOver100ms => "ERR>100ms"
      case ErrOver50ms => "ERR>50ms"
      case ErrOver10ms => "ERR>10ms"
      case NoStddev => "NO_SD"
      case SdOver15ms => "SD>15ms"
      case SdOver5ms => "SD>5ms"
      case SdOver1ms => "SD>1ms"
      case FskewOver2 => "FSKEW>2"
      case FskewOver1 => "FSKEW>1"
      case HighStratum => "HI_STR"
    }

    /** Position of the rule that raises the flag. */
    function Rank(): nat {
      match this
      case Unreach => 0
      case Bad => 1
      case TooVar => 2
      case NoReach => 3
      case ReachZero => 4
      case LowReach => 5
      case NoRx => 6
      case Stale => 7
      case Aging => 8
      case OffOver50ms => 9
      case OffOver10ms => 10
      case NoOffset => 11
      case ErrOver100ms => 12
      case ErrOver50ms => 13
      case ErrOver10ms => 14
      case NoStddev => 15
      case SdOver15ms => 16
      case SdOver5ms => 17
      case SdOver1ms => 18
      case FskewOver2 => 19
      case FskewOver1 => 20
      case HighStratum => 21
    }
  }

  /** The score change and the flags of one group of rules. */
  datatype Step = Step(delta: int, flags: seq<Flag>) {
    function Then(next: Step): Step {
      Step(delta + next.delta, flags + next.flags)
    }
  }

  // ---------- the rules, in evaluation order ----------

  /** The mode and state markers: `?` unreachable, `x` falseticker, `~`
      too variable, `*` selected, `+` combined. */
  function MarkerStep(ms: string): (st: Step)
    ensures Ordered(st.flags) && RanksIn(st.flags, 0, 2)
  {
    var unreach := '?' in ms;
    var bad := 'x' in ms;
    var tooVar := '~' in ms;
    Step((if unreach then -55 else 0) + (if bad then -45 else 0) + (if tooVar then -20 else 0)
           + (if '*' in ms then 5 else 0) + (if '+' in ms then 2 else 0),
         (if unreach then [Unreach] else []) + (if bad then [Bad] else []) + (if tooVar then [TooVar] else []))
  }

  function ReachStep(reach: Option<nat>): (st: Step)
    ensures |st.flags| <= 1 && RanksIn(st.flags, 3, 5)
  {
    match reach
    case None => Step(-10, [NoReach])
    case Some(r) =>
      if r == 0 then Step(-45, [ReachZero])
      else if r < 15 then Step(-15, [LowReach])   // 0o17
      else Step(0, [])
  }

  function RxStep(lastRx: Option<int>): (st: Step)
    ensures |st.flags| <= 1 && RanksIn(st.flags, 6, 8)
  {
    match lastRx
    case None => Step(-10, [NoRx])
    case Some(rx) =>
      if rx > 256 then Step(-25, [Stale])
      else if rx > 64 then Step(-15, [Aging])
      else Step(0, [])
  }

  function OffsetStep(off: Option<real>): (st: Step)
    ensures |st.flags| <= 1 && RanksIn(st.flags, 9, 11)
  {
    match off
    case None => Step(-6, [NoOffset])
    case Some(o) =>
      var ms := Abs(o) * 1000.0;
      if ms > 50.0 then Step(-35, [OffOver50ms])
      else if ms > 10.0 then Step(-15, [OffOver10ms])
      else if ms > 2.0 then Step(-5, [])
      else Step(0, [])
  }

  /** The error bound is compared with its sign, as the source does. */
  function ErrStep(err: Option<real>): (st: Step)
    ensures |st.flags| <= 1 && RanksIn(st.flags, 12, 14)
  {
    match err
    case None => Step(0, [])
    case Some(e) =>
      var ms := e * 1000.0;
      if ms > 100.0 then Step(-18, [ErrOver100ms])
      else if ms > 50.0 then Step(-12, [ErrOver50ms])
      else if ms > 10.0 then Step(-6, [ErrOver10ms])
      else Step(0, [])
  }

  function StddevStep(sd: Option<real>): (st: Step)
    ensures |st.flags| <= 1 && RanksIn(st.flags, 15, 18)
  {
    match sd
    case None => Step(-6, [NoStddev])
    case Some(d) =>
      var ms := d * 1000.0;
      if ms > 15.0 then Step(-30, [SdOver15ms])
      else if ms > 5.0 then Step(-18, [SdOver5ms])
      else if ms > 1.0 then Step(-7, [SdOver1ms])
      else Step(0, [])
  }

  function FskewStep(fskew: Option<real>): (st: Step)
    ensures |st.flags| <= 1 && RanksIn(st.flags, 19, 20)
  {
    match fskew
    case None => Step(-3, [])
    case Some(f) =>
      if f > 2.0 then Step(-12, [FskewOver2])
      else if f > 1.0 then Step(-7, [FskewOver1])
      else if f > 0.5 then Step(-3, [])
      else Step(0, [])
  }

  function StratumStep(stratum: Option<int>): (st: Step)
    ensures |st.flags| <= 1 && RanksIn(st.flags, 21, 21)
  {
    match stratum
    case None => Step(-3, [])
    case Some(st) =>
      if st <= 2 then Step(2, [])
      else if st >= 10 then Step(-8, [HighStratum])
      else Step(0, [])
  }

  /** All rules applied to one source, in the order the scorer runs them. */
  function Evaluate(src: SourceRow): Step {
    MarkerStep(src.ms)
      .Then(ReachStep(src.reach))
      .Then(RxStep(src.lastRx))
      .Then(OffsetStep(src.offset))
      .Then(ErrStep(src.err))
      .Then(StddevStep(src.ssStddev))
      .Then(FskewStep(src.ssFskew))
      .Then(StratumStep(src.stratum))
  }

  function RawScore(src: SourceRow): int { 100 + Evaluate(src).delta }

  /** `max(0.0, min(100.0, score))`. */
  function Clamp(x: int): (r: int)
    ensures 0 <= r <= 100
    ensures 0 <= x <= 100 ==> r == x
  {
    if x < 0 then 0 else if x > 100 then 100 else x
  }

  /** The published score: the raw sum clamped into [0, 100]; a raw sum
      already in range is reported unchanged. */
  function TrustScore(src: SourceRow): (score: int)
    ensures 0 <= score <= 100
    ensures 0 <= RawScore(src) <= 100 ==> score == RawScore(src)
    ensures RawScore(src) < 0 ==> score == 0
  {
    Clamp(RawScore(src))
  }

  function TrustFlags(src: SourceRow): seq<Flag> { Evaluate(src).flags }

  /** The tier for a clamped score and its flags. */
  function TrustSeverity(score: int, flags: seq<Flag>): (sev: Severity)
    ensures sev == Ok <==> score >= 80 && Unreach !in flags && Bad !in flags
    ensures sev == Critical <==> score < 55
  {
    if score >= 80 && Unreach !in flags && Bad !in flags then Ok
    else if score >= 55 then Warn
    else Critical
  }

  /** `source_trust`: the score starts at 100 and each group of rules
      adjusts it in turn; the sum is clamped to [0, 100] and then tiered.
      All adjustments are whole numbers, so `int(score)` loses nothing. */
  method SourceTrust(src: SourceRow) returns (score: int, flags: seq<Flag>, sev: Severity)
    ensures score == TrustScore(src) && flags == TrustFlags(src)
    ensures 0 <= score <= 100
    ensures sev == Ok ==> score >= 80 && Unreach !in flags && Bad !in flags
    ensures sev == Warn ==> 55 <= score
    ensures sev == Critical <==> score < 55
    ensures sev == TrustSeverity(score, flags)
  {
    score, flags := ApplyMarkers(src.ms, 100, []);
    assert flags == MarkerStep(src.ms).flags;
    score, flags := ApplyReach(src.reach, score, flags);
    score, flags := ApplyLastRx(src.lastRx, score, flags);
    score, flags := ApplyOffset(src.offset, score, flags);
    score, flags := ApplyErr(src.err, score, flags);
    score, flags := ApplyStddev(src.ssStddev, score, flags);
    score, flags := ApplyFskew(src.ssFskew, score, flags);
    score, flags := ApplyStratum(src.stratum, score, flags);
    assert score == RawScore(src);

    score := if score < 0 then 0 else if score > 100 then 100 else score;

    if score >= 80 && Unreach !in flags && Bad !in flags {
      sev := Ok;
    } else if score >= 55 {
      sev := Warn;
    } else {
      sev := Critical;
    }
  }

  method ApplyMarkers(ms: string, score0: int, flags0: seq<Flag>) returns (score: int, flags: seq<Flag>)
    ensures score == score0 + MarkerStep(ms).delta && flags == flags0 + MarkerStep(ms).flags
  {
    score, flags := score0, flags0;
    if '?' in ms { flags := flags + [Unreach]; score := score - 55; }
    if 'x' in ms { flags := flags + [Bad]; score := score - 45; }
    if '~' in ms { flags := flags + [TooVar]; score := score - 20; }
    if '*' in ms { score := score + 5; }
    if '+' in ms { score := score + 2; }
  }

  method ApplyReach(reach: Option<nat>, score0: int, flags0: seq<Flag>) returns (score: int, flags: seq<Flag>)
    ensures score == score0 + ReachStep(reach).delta && flags == flags0 + ReachStep(reach).flags
  {
    score, flags := score0, flags0;
    match reach {
      case None => score := score - 10; flags := flags + [NoReach];
      case Some(r) =>
        if r == 0 { score := score - 45; flags := flags + [ReachZero]; }
        else if r < 15 { score := score - 15; flags := flags + [LowReach]; }
    }
  }

  method ApplyLastRx(lastRx: Option<int>, score0: int, flags0: seq<Flag>) returns (score: int, flags: seq<Flag>)
    ensures score == score0 + RxStep(lastRx).delta && flags == flags0 + RxStep(lastRx).flags
  {
    score, flags := score0, flags0;
    match lastRx {
      case None => score := score - 10; flags := flags + [NoRx];
      case Some(rx) =>
        if rx > 256 { score := score - 25; flags := flags + [Stale]; }
        else if rx > 64 { score := score - 15; flags := flags + [Aging]; }
    }
  }

  method ApplyOffset(off: Option<real>, score0: int, flags0: seq<Flag>) returns (score: int, flags: seq<Flag>)
    ensures score == score0 + OffsetStep(off).delta && flags == flags0 + OffsetStep(off).flags
  {
    score, flags := score0, flags0;
    match off {
      case Some(o) =>
        var offMs := Abs(o) * 1000.0;
        if offMs > 50.0 { score := score - 35; flags := flags + [OffOver50ms]; }
        else if offMs > 10.0 { score := score - 15; flags := flags + [OffOver10ms]; }
        else if offMs > 2.0 { score := score - 5; }
      case None => score := score - 6; flags := flags + [NoOffset];
    }
  }

  method ApplyErr(err: Option<real>, score0: int, flags0: seq<Flag>) returns (score: int, flags: seq<Flag>)
    ensures score == score0 + ErrStep(err).delta && flags == flags0 + ErrStep(err).flags
  {
    score, flags := score0, flags0;
    match err {
      case Some(e) =>
        var errMs := e * 1000.0;
        if errMs > 100.0 { score := score - 18; flags := flags + [ErrOver100ms]; }
        else if errMs > 50.0 { score := score - 12; flags := flags + [ErrOver50ms]; }
        else if errMs > 10.0 { score := score - 6; flags := flags + [ErrOver10ms]; }
      case None =>
    }
  }

  method ApplyStddev(sd: Option<real>, score0: int, flags0: seq<Flag>) returns (score: int, flags: seq<Flag>)
    ensures score == score0 + StddevStep(sd).delta && flags == flags0 + StddevStep(sd).flags
  {
    score, flags := score0, flags0;
    match sd {
      case None => score := score - 6; flags := flags + [NoStddev];
      case Some(d) =>
        var sdMs := d * 1000.0;
        if sdMs > 15.0 { score := score - 30; flags := flags + [SdOver15ms]; }
        else if sdMs > 5.0 { score := score - 18; flags := flags + [SdOver5ms]; }
        else if sdMs > 1.0 { score := score - 7; flags := flags + [SdOver1ms]; }
    }
  }

  method ApplyFskew(fskew: Option<real>, score0: int, flags0: seq<Flag>) returns (score: int, flags: seq<Flag>)
    ensures score == score0 + FskewStep(fskew).delta && flags == flags0 + FskewStep(fskew).flags
  {
    score, flags := score0, flags0;
    match fskew {
      case None => score := score - 3;
      case Some(f) =>
        if f > 2.0 { score := score - 12; flags := flags + [FskewOver2]; }
        else if f > 1.0 { score := score - 7; flags := flags + [FskewOver1]; }
        else if f > 0.5 { score := score - 3; }
    }
  }

  method ApplyStratum(stratum: Option<int>, score0: int, flags0: seq<Flag>) returns (score: int, flags: seq<Flag>)
    ensures score == score0 + StratumStep(stratum).delta && flags == flags0 + StratumStep(stratum).flags
  {
    score, flags := score0, flags0;
    match stratum {
      case None => score := score - 3;
      case Some(st) =>
        if st <= 2 { score := score + 2; }
        else if st >= 10 { score := score - 8; flags := flags + [HighStratum]; }
    }
  }

  // ---------- properties of the scoring rules ----------

  /** Every tier boundary of the scorer, stated on the specification. */
  lemma SeverityBands(src: SourceRow)
    ensures var score := TrustScore(src); var sev := TrustSeverity(score, TrustFlags(src));
      && 0 <= score <= 100
      && (sev == Ok ==> 80 <= score)
      && (sev == Warn ==> 55 <= score)
      && (sev == Critical <==> score < 55)
  {
  }

  /** A source marked unreachable (`?`) with an empty reach register is
      flagged both UNREACH (first) and RCH=0, and is always critical: at
      most 9 points survive the two deductions. */
  lemma UnreachableWithEmptyRegister(src: SourceRow)
    requires '?' in src.ms && src.reach == Some(0)
    ensures |TrustFlags(src)| >= 2 && TrustFlags(src)[0] == Unreach && ReachZero in TrustFlags(src)
    ensures RawScore(src) <= 9
    ensures TrustSeverity(TrustScore(src), TrustFlags(src)) == Critical
  {
    UnreachableFlags(src);
    UnreachableScore(src);
  }

  lemma UnreachableFlags(src: SourceRow)
    requires '?' in src.ms && src.reach == Some(0)
    ensures |TrustFlags(src)| >= 2 && TrustFlags(src)[0] == Unreach && ReachZero in TrustFlags(src)
  {
    var m := MarkerStep(src.ms).flags;
    assert m[0] == Unreach;
    var st := MarkerStep(src.ms).Then(ReachStep(src.reach));
    assert st.flags == m + [ReachZero];
    var k := |m|;
    assert st.flags[0] == Unreach && st.flags[k] == ReachZero;
    st := st.Then(RxStep(src.lastRx));
    assert st.flags[0] == Unreach && st.flags[k] == ReachZero;
    st := st.Then(OffsetStep(src.offset));
    assert st.flags[0] == Unreach && st.flags[k] == ReachZero;
    st := st.Then(ErrStep(src.err));
    assert st.flags[0] == Unreach && st.flags[k] == ReachZero;
    st := st.Then(StddevStep(src.ssStddev));
    assert st.flags[0] == Unreach && st.flags[k] == ReachZero;
    st := st.Then(FskewStep(src.ssFskew));
    assert st.flags[0] == Unreach && st.flags[k] == ReachZero;
    st := st.Then(StratumStep(src.stratum));
    assert st.flags[0] == Unreach && st.flags[k] == ReachZero;
    assert st == Evaluate(src);
  }

  lemma UnreachableScore(src: SourceRow)
    requires '?' in src.ms && src.reach == Some(0)
    ensures RawScore(src) <= 9
  {
    assert MarkerStep(src.ms).delta <= -48;
    NonPositiveSteps(src);
  }

  lemma NonPositiveSteps(src: SourceRow)
    ensures RxStep(src.lastRx).delta <= 0 && OffsetStep(src.offset).delta <= 0
    ensures ErrStep(src.err).delta <= 0 && StddevStep(src.ssStddev).delta <= 0
    ensures FskewStep(src.ssFskew).delta <= 0 && StratumStep(src.stratum).delta <= 2
    ensures ReachStep(src.reach).delta <= 0 && MarkerStep(src.ms).delta <= 7
  {
  }

  /** Flags come out in the order the rules are evaluated, each at most
      once. */
  predicate Ordered(fs: seq<Flag>) {
    forall i, j :: 0 <= i < j < |fs| ==> fs[i].Rank() < fs[j].Rank()
  }

  predicate RanksIn(fs: seq<Flag>, lo: nat, hi: nat) {
    forall i :: 0 <= i < |fs| ==> lo <= fs[i].Rank() <= hi
  }

  lemma OrderedConcat(a: seq<Flag>, b: seq<Flag>, lo: nat, mid: nat, hi: nat)
    requires lo <= mid < hi
    requires Ordered(a) && RanksIn(a, lo, mid) && Ordered(b) && RanksIn(b, mid + 1, hi)
    ensures Ordered(a + b) && RanksIn(a + b, lo, hi)
  {
    var c := a + b;
    forall i | 0 <= i < |c| ensures lo <= c[i].Rank() <= hi {
      if i < |a| {
        assert c[i] == a[i] && lo <= a[i].Rank() <= mid;
      } else {
        assert c[i] == b[i - |a|] && mid + 1 <= b[i - |a|].Rank() <= hi;
      }
    }
    forall i, j | 0 <= i < j < |c| ensures c[i].Rank() < c[j].Rank() {
      if j < |a| {
      } else if i < |a| {
        assert c[i] == a[i] && c[j] == b[j - |a|];
      } else {
        assert c[i] == b[i - |a|] && c[j] == b[j - |a|];
      }
    }
  }

  lemma {:induction false} FlagsInEvaluationOrder(src: SourceRow)
    ensures Ordered(TrustFlags(src))
  {
    var m := MarkerStep(src.ms).flags;
    OrderedConcat(m, ReachStep(src.reach).flags, 0, 2, 5);
    var a := m + ReachStep(src.reach).flags;
    OrderedConcat(a, RxStep(src.lastRx).flags, 0, 5, 8);
    var b := a + RxStep(src.lastRx).flags;
    OrderedConcat(b, OffsetStep(src.offset).flags, 0, 8, 11);
    var c := b + OffsetStep(src.offset).flags;
    OrderedConcat(c, ErrStep(src.err).flags, 0, 11, 14);
    var d := c + ErrStep(src.err).flags;
    OrderedConcat(d, StddevStep(src.ssStddev).flags, 0, 14, 18);
    var e := d + StddevStep(src.ssStddev).flags;
    OrderedConcat(e, FskewStep(src.ssFskew).flags, 0, 18, 20);
    var f := e + FskewStep(src.ssFskew).flags;
    OrderedConcat(f, StratumStep(src.stratum).flags, 0, 20, 21);
  }

  /** A larger measured offset never raises the score. */
  lemma LargerOffsetNeverHelps(src: SourceRow, o1: real, o2: real)
    requires Abs(o1) <= Abs(o2)
    ensures RawScore(src.(offset := Some(o2))) <= RawScore(src.(offset := Some(o1)))
  {
  }

  /** A larger regression standard deviation never raises the score. */
  lemma LargerStddevNeverHelps(src: SourceRow, d1: real, d2: real)
    requires d1 <= d2
    ensures RawScore(src.(ssStddev := Some(d2))) <= RawScore(src.(ssStddev := Some(d1)))
  {
  }

  /** An older last sample never raises the score. */
  lemma OlderSampleNeverHelps(src: SourceRow, rx1: int, rx2: int)
    requires rx1 <= rx2
    ensures RawScore(src.(lastRx := Some(rx2))) <= RawScore(src.(lastRx := Some(rx1)))
  {
  }

  /** A selected, fully reachable, fresh, close, low-noise stratum-1 source
      scores the full 100 with no flags. */
  lemma HealthySourceScoresFull(src: SourceRow)
    requires src.ms == "^*" && src.reach == Some(255) && src.lastRx == Some(16)
    requires src.offset == Some(0.0001) && src.err == Some(0.001)
    requires src.ssStddev == Some(0.0005) && src.ssFskew == Some(0.1) && src.stratum == Some(1)
    ensures TrustScore(src) == 100 && TrustFlags(src) == []
    ensures TrustSeverity(TrustScore(src), TrustFlags(src)) == Ok
  {
    assert '?' !in src.ms && 'x' !in src.ms && '~' !in src.ms && '*' in src.ms && '+' !in src.ms;
  }
}
