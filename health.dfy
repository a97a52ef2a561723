/** `chrony_sync_health` and the oscillator part of `health`: the alert
    list shown in the health panel, highest priority first. */
module Health {
  import opened Wrappers
  import opened Records
  import opened Numbers
  import opened Diagnostics

  const TrackingStaleSecs: real := 5.0
  const SourcesStaleSecs: real := 15.0
  const SourcestatsStaleSecs: real := 60.0

  // ---------- per-source tests ----------

  predicate IsCombined(s: SourceRow) { '+' in s.ms }

  predicate IsReachable(s: SourceRow) { s.reach.Some? && s.reach.value > 0 }

  predicate HasRecentRx(s: SourceRow) { s.lastRx.Some? && s.lastRx.value <= 256 }

  /** How many of `ss` satisfy `p`, counted from the back so that the loop
      below extends it one source at a time. */
  function Count(ss: seq<SourceRow>, p: SourceRow -> bool): (n: nat)
    ensures n <= |ss|
  {
    if ss == [] then 0
    else Count(ss[..|ss| - 1], p) + (if p(ss[|ss| - 1]) then 1 else 0)
  }

  lemma CountSnoc(ss: seq<SourceRow>, x: SourceRow, p: SourceRow -> bool)
    ensures Count(ss + [x], p) == Count(ss, p) + (if p(x) then 1 else 0)
  {
    assert (ss + [x])[..|ss|] == ss;
  }

  /** The count is zero exactly when no source passes. */
  lemma {:induction false} CountZero(ss: seq<SourceRow>, p: SourceRow -> bool)
    ensures Count(ss, p) == 0 <==> forall i :: 0 <= i < |ss| ==> !p(ss[i])
  {
    if ss != [] {
      var init := ss[..|ss| - 1];
      CountZero(init, p);
      assert forall i :: 0 <= i < |init| ==> init[i] == ss[i];
    }
  }

  predicate AnyRecentRx(ss: seq<SourceRow>) {
    exists i :: 0 <= i < |ss| && HasRecentRx(ss[i])
  }

  // ---------- the alert list ----------

  function StaleAlerts(ages: Ages): (alerts: seq<Alert>)
    ensures forall a :: a in alerts ==> IsStaleness(a.code)
  {
    (if Exceeds(ages.tracking, TrackingStaleSecs) then [Alert(TrackingStale, Critical)] else [])
      + (if Exceeds(ages.sources, SourcesStaleSecs) then [Alert(SourcesStale, Critical)] else [])
      + (if Exceeds(ages.sourcestats, SourcestatsStaleSecs) then [Alert(SourcestatsStale, Warn)] else [])
  }

  /** The hard failures: nothing reachable, nothing selected, no recent
      sample. */
  function HardFailures(reachable: nat, selected: nat, anyRx: bool): seq<Alert> {
    (if reachable == 0 then [Alert(NoReachable, Critical)] else [])
      + (if selected == 0 then [Alert(NoSelected, Critical)] else [])
      + (if !anyRx then [Alert(AllRxStale, Critical)] else [])
  }

  /** The closing verdict after the alerts `soFar`: degraded with a single
      reachable source, or an explicit OK when nothing else complained. */
  function Verdict(reachable: nat, selected: nat, combined: nat, soFar: seq<Alert>): seq<Alert> {
    if reachable == 1 then [Alert(DegradedOneReachable, Warn)]
    else if reachable >= 2 && selected >= 1 && combined >= 1 && soFar == [] then [Alert(SyncOk, Ok)]
    else []
  }

  /** The verdict drawn from the counts, after the alerts in `earlier`. */
  function CountAlerts(reachable: nat, selected: nat, combined: nat, anyRx: bool, earlier: seq<Alert>): seq<Alert> {
    var soFar := earlier + HardFailures(reachable, selected, anyRx);
    soFar + Verdict(reachable, selected, combined, soFar)
  }

  /** The alerts `chrony_sync_health` returns for the given sources and
      cache ages. */
  function SyncAlerts(sources: seq<SourceRow>, ages: Ages): seq<Alert> {
    if ages.tracking == Infinite || ages.sources == Infinite then [Alert(DaemonDown, Critical)]
    else
      var stale := StaleAlerts(ages);
      if Exceeds(ages.sources, SourcesStaleSecs) then stale
      else if sources == [] then stale + [Alert(NoSourcesParsed, Critical)]
      else
        CountAlerts(Count(sources, IsReachable), Count(sources, IsSelected), Count(sources, IsCombined),
                    AnyRecentRx(sources), stale)
  }

  /** `chrony_sync_health`: staleness checks with early exits, then one pass
      over the sources counting reachable, selected and combined ones. */
  method ChronySyncHealth(sources: seq<SourceRow>, ages: Ages) returns (alerts: seq<Alert>)
    ensures alerts == SyncAlerts(sources, ages)
  {
    alerts := [];
    if ages.tracking == Infinite || ages.sources == Infinite {
      alerts := alerts + [Alert(DaemonDown, Critical)];
      return;
    }
    if Exceeds(ages.tracking, TrackingStaleSecs) {
      alerts := alerts + [Alert(TrackingStale, Critical)];
    }
    if Exceeds(ages.sources, SourcesStaleSecs) {
      alerts := alerts + [Alert(SourcesStale, Critical)];
    }
    if Exceeds(ages.sourcestats, SourcestatsStaleSecs) {
      alerts := alerts + [Alert(SourcestatsStale, Warn)];
    }
    assert alerts == StaleAlerts(ages);
    if Exceeds(ages.sources, SourcesStaleSecs) {
      return;
    }
    if sources == [] {
      alerts := alerts + [Alert(NoSourcesParsed, Critical)];
      return;
    }

    var reachable, selected, combined, anyRxRecent := CountSources(sources);
    alerts := AppendVerdict(alerts, reachable, selected, combined, anyRxRecent);
  }

  /** The closing part of `chrony_sync_health`: the hard failures, then the
      degraded or OK verdict. */
  method AppendVerdict(earlier: seq<Alert>, reachable: nat, selected: nat, combined: nat, anyRxRecent: bool)
    returns (alerts: seq<Alert>)
    ensures alerts == CountAlerts(reachable, selected, combined, anyRxRecent, earlier)
  {
    alerts := earlier;
    ghost var hard: seq<Alert> := [];
    if reachable == 0 {
      alerts := alerts + [Alert(NoReachable, Critical)];
      hard := hard + [Alert(NoReachable, Critical)];
    }
    if selected == 0 {
      alerts := alerts + [Alert(NoSelected, Critical)];
      hard := hard + [Alert(NoSelected, Critical)];
    }
    if !anyRxRecent {
      alerts := alerts + [Alert(AllRxStale, Critical)];
      hard := hard + [Alert(AllRxStale, Critical)];
    }
    assert hard == HardFailures(reachable, selected, anyRxRecent);
    assert alerts == earlier + hard;
    ghost var soFar := alerts;
    if reachable == 1 {
      alerts := alerts + [Alert(DegradedOneReachable, Warn)];
    } else if reachable >= 2 && selected >= 1 && combined >= 1 && alerts == [] {
      alerts := alerts + [Alert(SyncOk, Ok)];
    }
    assert alerts == soFar + Verdict(reachable, selected, combined, soFar);
  }

  /** The counting pass of `chrony_sync_health`. */
  method CountSources(sources: seq<SourceRow>) returns (reachable: nat, selected: nat, combined: nat, anyRxRecent: bool)
    ensures reachable == Count(sources, IsReachable) && selected == Count(sources, IsSelected)
    ensures combined == Count(sources, IsCombined) && (anyRxRecent <==> AnyRecentRx(sources))
  {
    reachable, selected, combined := 0, 0, 0;
    anyRxRecent := false;
    var i := 0;
    while i < |sources|
      invariant 0 <= i <= |sources|
      invariant reachable == Count(sources[..i], IsReachable)
      invariant selected == Count(sources[..i], IsSelected)
      invariant combined == Count(sources[..i], IsCombined)
      invariant anyRxRecent <==> AnyRecentRx(sources[..i])
    {
      var s := sources[i];
      assert sources[..i + 1] == sources[..i] + [s];
      CountSnoc(sources[..i], s, IsReachable);
      CountSnoc(sources[..i], s, IsSelected);
      CountSnoc(sources[..i], s, IsCombined);
      if '*' in s.ms {
        selected := selected + 1;
      }
      if '+' in s.ms {
        combined := combined + 1;
      }
      if s.reach.Some? && s.reach.value > 0 {
        reachable := reachable + 1;
      }
      if s.lastRx.Some? && s.lastRx.value <= 256 {
        anyRxRecent := true;
      }
      assert AnyRecentRx(sources[..i + 1]) <==> AnyRecentRx(sources[..i]) || HasRecentRx(s) by {
        assert sources[..i + 1][i] == s;
      }
      i := i + 1;
    }
    assert sources[..i] == sources;
  }

  // ---------- properties of the sync verdict ----------

  /** No valid output ever: a single red alert and nothing else. */
  lemma NeverAnsweredMeansDaemonDown(sources: seq<SourceRow>, ages: Ages)
    requires ages.tracking == Infinite || ages.sources == Infinite
    ensures SyncAlerts(sources, ages) == [Alert(DaemonDown, Critical)]
  {
  }

  /** With a stale sources table nothing is said about synchronisation. */
  lemma StaleSourcesOnlyStaleness(sources: seq<SourceRow>, ages: Ages)
    requires ages.tracking != Infinite && ages.sources != Infinite
    requires Exceeds(ages.sources, SourcesStaleSecs)
    ensures Alert(SourcesStale, Critical) in SyncAlerts(sources, ages)
    ensures forall a :: a in SyncAlerts(sources, ages) ==> IsStaleness(a.code)
  {
  }

  /** Fresh but empty sources table: the staleness alerts, then "no sources
      parsed" last. */
  lemma EmptySourcesEndsTheList(ages: Ages)
    requires ages.tracking != Infinite && ages.sources != Infinite
    requires !Exceeds(ages.sources, SourcesStaleSecs)
    ensures var alerts := SyncAlerts([], ages);
      && alerts != [] && alerts[|alerts| - 1] == Alert(NoSourcesParsed, Critical)
      && forall i :: 0 <= i < |alerts| - 1 ==> IsStaleness(alerts[i].code)
  {
    var stale := StaleAlerts(ages);
    var alerts := SyncAlerts([], ages);
    assert alerts == stale + [Alert(NoSourcesParsed, Critical)];
    forall i | 0 <= i < |alerts| - 1 ensures IsStaleness(alerts[i].code) {
      assert alerts[i] == stale[i] && stale[i] in stale;
    }
  }

  /** Nothing reachable and nothing selected raise both hard failures. */
  lemma NoReachableAndNoSelected(sources: seq<SourceRow>, ages: Ages)
    requires ages.tracking != Infinite && ages.sources != Infinite
    requires !Exceeds(ages.sources, SourcesStaleSecs) && sources != []
    requires forall i :: 0 <= i < |sources| ==> !IsReachable(sources[i]) && !IsSelected(sources[i])
    ensures Alert(NoReachable, Critical) in SyncAlerts(sources, ages)
    ensures Alert(NoSelected, Critical) in SyncAlerts(sources, ages)
  {
    CountZero(sources, IsReachable);
    CountZero(sources, IsSelected);
    assert Count(sources, IsReachable) == 0 && Count(sources, IsSelected) == 0;
  }

  /** "Sync OK" is only ever the sole alert. */
  lemma SyncOkIsAlone(sources: seq<SourceRow>, ages: Ages)
    requires exists sev :: Alert(SyncOk, sev) in SyncAlerts(sources, ages)
    ensures SyncAlerts(sources, ages) == [Alert(SyncOk, Ok)]
  {
    var alerts := SyncAlerts(sources, ages);
    if ages.tracking == Infinite || ages.sources == Infinite {
    } else if Exceeds(ages.sources, SourcesStaleSecs) {
      OkIsNotStaleness(alerts);
    } else if sources == [] {
      assert alerts == StaleAlerts(ages) + [Alert(NoSourcesParsed, Critical)];
      OkIsNotStaleness(StaleAlerts(ages));
    } else {
      var stale := StaleAlerts(ages);
      OkIsNotStaleness(stale);
    }
  }

  lemma OkIsNotStaleness(alerts: seq<Alert>)
    requires forall a :: a in alerts ==> IsStaleness(a.code)
    ensures forall sev :: Alert(SyncOk, sev) !in alerts
  {
  }

  /** The converse: fresh data, at least two reachable sources, one
      selected, one combined and a recent sample give exactly "Sync OK". */
  lemma HealthySyncIsOk(sources: seq<SourceRow>, ages: Ages)
    requires !Exceeds(ages.tracking, TrackingStaleSecs) && !Exceeds(ages.sources, SourcesStaleSecs)
    requires !Exceeds(ages.sourcestats, SourcestatsStaleSecs)
    requires Count(sources, IsReachable) >= 2 && Count(sources, IsSelected) >= 1
    requires Count(sources, IsCombined) >= 1 && AnyRecentRx(sources)
    ensures SyncAlerts(sources, ages) == [Alert(SyncOk, Ok)]
  {
    assert StaleAlerts(ages) == [];
  }

  // ---------- oscillator and continuity checks ----------

  /** The checks on the latest tracking sample: offset in seconds, RMS
      offset in seconds, frequency and skew in ppm. */
  function OscillatorAlerts(offset: real, rms: real, freq: real, skew: real): seq<Alert> {
    var offMs := Abs(offset) * 1000.0;
    var rmsMs := Abs(rms) * 1000.0;
    (if offMs > 50.0 then [Alert(ClockStep, Critical)]
     else if offMs > 10.0 then [Alert(HighOffset, Warn)] else [])
      + (if rmsMs > 10.0 then [Alert(Jitter, Warn)] else [])
      + (if Abs(freq) > 100.0 then [Alert(Drift, Critical)] else [])
      + (if Abs(skew) > 5.0 then [Alert(UnstableOscillator, Warn)] else [])
  }

  /** Which oscillator alert fires, each in terms of its own input, and
      that a clock step and a high offset never both appear. */
  lemma OscillatorCodes(offset: real, rms: real, freq: real, skew: real)
    ensures var alerts := OscillatorAlerts(offset, rms, freq, skew);
      && (Alert(ClockStep, Critical) in alerts <==> Abs(offset) > 0.05)
      && (Alert(HighOffset, Warn) in alerts <==> 0.01 < Abs(offset) <= 0.05)
      && (Alert(Jitter, Warn) in alerts <==> Abs(rms) > 0.01)
      && (Alert(Drift, Critical) in alerts <==> Abs(freq) > 100.0)
      && (Alert(UnstableOscillator, Warn) in alerts <==> Abs(skew) > 5.0)
      && |alerts| <= 4
  {
  }

  /** The checks only depend on magnitudes: a clock behind by `x` is judged
      like one ahead by `x`. */
  lemma OscillatorSignFree(offset: real, rms: real, freq: real, skew: real)
    ensures OscillatorAlerts(-offset, -rms, -freq, -skew) == OscillatorAlerts(offset, rms, freq, skew)
  {
  }

  /** The checks that need the previous cycle: an offset jump of more than
      250 ms, and a monotonic gap of more than 15 s; neither fires on the
      first sample. */
  function JumpAlerts(lastOffset: Option<real>, offset: real, gap: real): seq<Alert> {
    match lastOffset
    case None => []
    case Some(prev) =>
      (if Abs(offset - prev) > 0.250 then [Alert(TimeJump, Critical)] else [])
        + (if gap > 15.0 then [Alert(SuspendDetected, Critical)] else [])
  }

  lemma JumpCodes(lastOffset: Option<real>, offset: real, gap: real)
    ensures var alerts := JumpAlerts(lastOffset, offset, gap);
      && (Alert(TimeJump, Critical) in alerts <==> lastOffset.Some? && Abs(offset - lastOffset.value) > 0.25)
      && (Alert(SuspendDetected, Critical) in alerts <==> lastOffset.Some? && gap > 15.0)
      && (forall a :: a in alerts ==> a.severity == Critical)
  {
  }

  function Last(h: seq<real>): real
    requires h != []
  {
    h[|h| - 1]
  }

  /** The latest value of a history, 0 when it is empty. */
  function LastOr0(h: seq<real>): real { if h == [] then 0.0 else Last(h) }

  /** The sync verdict `health` starts from: only when both the sources and
      the ages are given. */
  function SyncPart(sources: Option<seq<SourceRow>>, ages: Option<Ages>): seq<Alert> {
    if sources.Some? && ages.Some? then SyncAlerts(sources.value, ages.value) else []
  }

  /** The alerts of one `health` call: the sync verdict when both sources
      and ages were given, then, once there is tracking history, the
      oscillator checks on the latest sample and the continuity checks
      against the previous cycle (`gap` is the monotonic time since the
      last call that saw history). */
  function HealthAlerts(sources: Option<seq<SourceRow>>, ages: Option<Ages>, offsets: seq<real>, rmss: seq<real>,
                        freqs: seq<real>, skews: seq<real>, lastOffset: Option<real>, gap: real): seq<Alert> {
    var syncAlerts := SyncPart(sources, ages);
    if offsets == [] then syncAlerts
    else
      var off := Last(offsets);
      syncAlerts + OscillatorAlerts(off, LastOr0(rmss), LastOr0(freqs), LastOr0(skews))
        + JumpAlerts(lastOffset, off, gap)
  }

  /** Without tracking history only the sync verdict is reported, and the
      sync verdict always comes first. */
  lemma HealthOrder(sources: Option<seq<SourceRow>>, ages: Option<Ages>, offsets: seq<real>, rmss: seq<real>,
                    freqs: seq<real>, skews: seq<real>, lastOffset: Option<real>, gap: real)
    ensures var alerts := HealthAlerts(sources, ages, offsets, rmss, freqs, skews, lastOffset, gap);
      var syncAlerts := SyncPart(sources, ages);
      && alerts[..|syncAlerts|] == syncAlerts
      && (offsets == [] ==> alerts == syncAlerts)
  {
  }
}
