/** The `TimeTop` state the telemetry engine keeps between poll cycles: the
    rate-limited cache of `chronyc` outputs, the bounded histories of the
    tracking samples and CPU temperature, and the two values `health`
    carries to the next cycle. The clock reading `now` and the reply of the
    `chronyc` process are parameters. */
module Monitor {
  import opened Wrappers
  import opened Text
  import opened Records
  import opened Health
  import TrackingParser
  import SourcesParser
  import SourcestatsParser

  const TrackingRefreshSecs: real := 1.0
  const SourcesRefreshSecs: real := 5.0
  const SourcestatsRefreshSecs: real := 20.0

  const HistorySize: nat := 120

  const TrackingCmd: string := "tracking"
  const SourcesCmd: string := "sources -v"
  const SourcestatsCmd: string := "sourcestats -v"

  // ---------- recognising a failed chronyc call ----------

  /** Substrings of the usual daemon and socket failures. */
  const ErrorNeedles: seq<string> := [
    "Cannot talk to daemon",
    "506",
    "Could not open command socket",
    "Connection refused",
    "No such file or directory",
    "Operation not permitted"
  ]

  /** `chrony_out_is_error`: no output, blank output, or output that
      contains one of the needles once stripped. */
  predicate OutIsError(out: Option<string>) {
    match out
    case None => true
    case Some(o) =>
      var s := Strip(o);
      s == [] || exists i :: 0 <= i < |ErrorNeedles| && Contains(s, ErrorNeedles[i])
  }

  /** An accepted output is present and not blank. */
  lemma AcceptedIsNonBlank(out: Option<string>)
    requires !OutIsError(out)
    ensures out.Some? && !IsBlank(out.value)
  {
    StripEmptyIffBlank(out.value);
  }

  /** No needle starts or ends with whitespace. */
  lemma NeedleEnds(k: nat)
    requires k < |ErrorNeedles|
    ensures Trimmed(ErrorNeedles[k])
  {
  }

  /** Output that holds a needle anywhere is an error: no needle starts or
      ends with whitespace, so stripping the output keeps it. */
  lemma NeedleRejects(s: string, k: nat, i: nat)
    requires k < |ErrorNeedles| && OccursAt(s, ErrorNeedles[k], i)
    ensures OutIsError(Some(s))
  {
    NeedleEnds(k);
    OccursInStrip(s, ErrorNeedles[k], i);
  }

  /** The error check in terms of the raw output: an output is rejected
      exactly when it is blank or one of the needles occurs in it, strip or
      no strip. */
  lemma OutIsErrorIff(s: string)
    ensures OutIsError(Some(s)) <==>
      IsBlank(s) || exists k :: 0 <= k < |ErrorNeedles| && Contains(s, ErrorNeedles[k])
  {
    StripEmptyIffBlank(s);
    forall k | 0 <= k < |ErrorNeedles|
      ensures Contains(Strip(s), ErrorNeedles[k]) <==> Contains(s, ErrorNeedles[k])
    {
      NeedleEnds(k);
      StripKeepsContains(s, ErrorNeedles[k]);
    }
  }

  /** The needle "506" is a bare substring: a healthy report whose numbers
      happen to contain those digits is rejected as well. */
  lemma DigitsOf506AreRejected()
    ensures OutIsError(Some("Last offset     : +0.000506 seconds\n"))
  {
    var s := "Last offset     : +0.000506 seconds\n";
    assert s[24..27] == "506";
    NeedleRejects(s, 1, 24);
  }

  // ---------- the cache ----------

  /** One `_chrony_cache` entry: the last accepted output, the times of the
      last attempt and of the last success, and the refresh interval. */
  datatype CacheEntry = CacheEntry(out: Option<string>, lastTry: real, lastOk: real, interval: real)

  function InitialCache(): map<string, CacheEntry> {
    map[
      TrackingCmd := CacheEntry(None, 0.0, 0.0, TrackingRefreshSecs),
      SourcesCmd := CacheEntry(None, 0.0, 0.0, SourcesRefreshSecs),
      SourcestatsCmd := CacheEntry(None, 0.0, 0.0, SourcestatsRefreshSecs)
    ]
  }

  /** A query is due once a full interval has passed since the last try. */
  predicate Due(e: CacheEntry, now: real) { now - e.lastTry >= e.interval }

  /** The reply of `run_chronyc` is kept only when present, non-blank and
      not an error. */
  predicate Accepts(reply: Option<string>) {
    reply.Some? && Strip(reply.value) != [] && !OutIsError(reply)
  }

  /** The entry after one `chronyc_cached` call at time `now`, where `reply`
      is what the query would return. */
  function Refreshed(e: CacheEntry, now: real, reply: Option<string>): (r: CacheEntry)
    ensures r.interval == e.interval
    ensures (Due(e, now) || e.out.None?) ==> r.lastTry == now
    ensures !(Due(e, now) || e.out.None?) ==> r == e
    ensures r.out != e.out ==> r.out == reply && !OutIsError(reply) && r.lastOk == now
    ensures r.lastOk != e.lastOk ==> r.out == reply && r.lastOk == now
  {
    if Due(e, now) || e.out.None? then
      var tried := e.(lastTry := now);
      if Accepts(reply) then tried.(out := reply, lastOk := now) else tried
    else e
  }

  /** The entry holds nothing an error check would reject. */
  predicate Clean(e: CacheEntry) { e.out.None? || !OutIsError(e.out) }

  /** Every entry of a cache is clean. */
  predicate AllClean(c: map<string, CacheEntry>) {
    forall cmd :: cmd in c ==> Clean(c[cmd])
  }

  /** Storing a clean entry keeps a clean cache clean. */
  lemma StoreKeepsClean(c: map<string, CacheEntry>, cmd: string, e: CacheEntry)
    requires AllClean(c) && Clean(e)
    ensures AllClean(c[cmd := e])
  {
  }

  /** A failed or rejected attempt only records the attempt: the previous
      output and its time survive. */
  lemma RejectedReplyKeepsOutput(e: CacheEntry, now: real, reply: Option<string>)
    requires Due(e, now) || e.out.None?
    requires OutIsError(reply)
    ensures Refreshed(e, now, reply) == e.(lastTry := now)
  {
  }

  /** An accepted reply replaces the output and stamps both times. */
  lemma AcceptedReplyIsStored(e: CacheEntry, now: real, reply: Option<string>)
    requires Due(e, now) || e.out.None?
    requires !OutIsError(reply)
    ensures Refreshed(e, now, reply) == e.(out := reply, lastTry := now, lastOk := now)
  {
    AcceptedIsNonBlank(reply);
    StripEmptyIffBlank(reply.value);
  }

  /** Within the interval, with an output cached, nothing is queried and
      nothing changes. */
  lemma NotDueIsUntouched(e: CacheEntry, now: real, reply: Option<string>)
    requires !Due(e, now) && e.out.Some?
    ensures Refreshed(e, now, reply) == e
  {
  }

  /** The cache never stores an output the error check rejects. */
  lemma RefreshKeepsClean(e: CacheEntry, now: real, reply: Option<string>)
    requires Clean(e)
    ensures Clean(Refreshed(e, now, reply))
  {
  }

  /** Rate limiting: once an output is cached, a second call at the same
      instant neither queries nor changes the entry. */
  lemma SecondCallIsCached(e: CacheEntry, now: real, r1: Option<string>, r2: Option<string>)
    requires e.interval > 0.0
    requires Refreshed(e, now, r1).out.Some?
    requires Due(e, now) || e.out.None?
    ensures Refreshed(Refreshed(e, now, r1), now, r2) == Refreshed(e, now, r1)
  {
  }

  /** `chrony_age` for an entry (or its absence): infinite until the first
      success, then the non-negative time since it. */
  function AgeOf(e: Option<CacheEntry>, now: real): (a: Age)
    ensures a.Finite? ==> a.secs >= 0.0
    ensures a == NoEntry <==> e.None?
    ensures a == Infinite <==> e.Some? && e.value.lastOk <= 0.0
  {
    match e
    case None => NoEntry
    case Some(entry) =>
      if entry.lastOk <= 0.0 then Infinite
      else Finite(if now - entry.lastOk >= 0.0 then now - entry.lastOk else 0.0)
  }

  /** Right after an accepted reply at a positive time the age is zero; a
      rejected one leaves the age to keep growing. */
  lemma AgeAfterRefresh(e: CacheEntry, now: real, reply: Option<string>)
    requires Due(e, now) || e.out.None?
    requires now > 0.0
    ensures !OutIsError(reply) ==> AgeOf(Some(Refreshed(e, now, reply)), now) == Finite(0.0)
    ensures OutIsError(reply) ==> AgeOf(Some(Refreshed(e, now, reply)), now) == AgeOf(Some(e), now)
  {
    var r := Refreshed(e, now, reply);
    if OutIsError(reply) {
      RejectedReplyKeepsOutput(e, now, reply);
      assert r.lastOk == e.lastOk;
    } else {
      AcceptedReplyIsStored(e, now, reply);
      assert r.lastOk == now;
    }
  }

  // ---------- bounded histories ----------

  /** `deque.append` with `maxlen` = 120: the oldest sample falls out once
      the history is full. */
  function Push(h: seq<real>, x: real): (r: seq<real>)
    ensures |r| == if |h| < HistorySize then |h| + 1 else HistorySize
    ensures r == (h + [x])[|h| + 1 - |r|..]
  {
    var t := h + [x];
    if |t| > HistorySize then t[|t| - HistorySize..] else t
  }

  /** What a bounded append keeps: the history never exceeds 120 samples,
      ends with the new sample, and is the newest suffix of everything
      appended so far. */
  lemma PushKeepsNewest(h: seq<real>, x: real)
    requires |h| <= HistorySize
    ensures var r := Push(h, x);
      && |r| <= HistorySize && r != [] && r[|r| - 1] == x
      && (|h| < HistorySize ==> r == h + [x])
      && (|h| == HistorySize ==> r == h[1..] + [x])
  {
  }

  // ---------- what one refresh cycle feeds to `health` ----------

  /** The parsed tracking report of a cycle: parsed only when the output
      passes the error check. */
  function TrackingOf(out: Option<string>): Option<Tracking>
    requires out.Some? ==> TrackingParser.WellFormed(out.value)
  {
    if OutIsError(out) then None else TrackingParser.ParseTracking(out.value)
  }

  /** The parsed sources table, empty when the output fails the error check. */
  function SourcesOf(out: Option<string>): seq<SourceRow> {
    if OutIsError(out) then [] else SourcesParser.ParseSources(out.value)
  }

  /** The parsed sourcestats map, empty when the output fails the error check. */
  function StatsOf(out: Option<string>): map<string, StatsRow> {
    if OutIsError(out) then map[] else SourcestatsParser.ParseSourcestats(out.value)
  }

  /** The sources table after `merge_sourcestats`. */
  function MergedAll(rows: seq<SourceRow>, ssMap: map<string, StatsRow>): seq<SourceRow> {
    seq(|rows|, i requires 0 <= i < |rows| => SourcestatsParser.Merged(rows[i], ssMap))
  }

  /** A tracking output that passes the error check always yields a report,
      so every accepted tracking reply adds one sample to the histories. */
  lemma AcceptedTrackingYieldsSample(out: Option<string>)
    requires out.Some? ==> TrackingParser.WellFormed(out.value)
    ensures TrackingOf(out).Some? <==> !OutIsError(out)
  {
    if !OutIsError(out) {
      AcceptedIsNonBlank(out);
    }
  }

  /** The cache after the three queries of one cycle. */
  function Fetched(cache: map<string, CacheEntry>, now: real, trackingReply: Option<string>,
                   sourcesReply: Option<string>, sourcestatsReply: Option<string>): map<string, CacheEntry>
    requires TrackingCmd in cache && SourcesCmd in cache && SourcestatsCmd in cache
  {
    cache
      [TrackingCmd := Refreshed(cache[TrackingCmd], now, trackingReply)]
      [SourcesCmd := Refreshed(cache[SourcesCmd], now, sourcesReply)]
      [SourcestatsCmd := Refreshed(cache[SourcestatsCmd], now, sourcestatsReply)]
  }

  // ---------- the monitor ----------

  class TimeTop {
    var cache: map<string, CacheEntry>
    var offsetHistory: seq<real>
    var rmsHistory: seq<real>
    var freqHistory: seq<real>
    var skewHistory: seq<real>
    var tempHistory: seq<real>
    var lastOffset: Option<real>
    var lastMonotonic: real

    /** The three commands have entries, the cache holds only accepted
        outputs, and the four tracking
        histories grow together within their bound. */
    ghost predicate Valid()
      reads this
    {
      && TrackingCmd in cache && SourcesCmd in cache && SourcestatsCmd in cache
      && AllClean(cache)
      && |offsetHistory| == |rmsHistory| == |freqHistory| == |skewHistory| <= HistorySize
      && |tempHistory| <= HistorySize
    }

    constructor(now: real)
      ensures Valid()
      ensures cache == InitialCache()
      ensures offsetHistory == [] && rmsHistory == [] && freqHistory == [] && skewHistory == []
      ensures tempHistory == [] && lastOffset == None && lastMonotonic == now
    {
      cache := InitialCache();
      offsetHistory := [];
      rmsHistory := [];
      freqHistory := [];
      skewHistory := [];
      tempHistory := [];
      lastOffset := None;
      lastMonotonic := now;
    }

    /** `chronyc_cached`: a command without an entry is run directly;
        otherwise it is run only when due (or nothing is cached yet), and
        the cached output is returned. */
    method ChronycCached(cmd: string, now: real, reply: Option<string>) returns (out: Option<string>)
      requires Valid()
      modifies this`cache
      ensures Valid()
      ensures cmd !in old(cache) ==> cache == old(cache) && out == reply
      ensures cmd in old(cache) ==>
        && cache == old(cache)[cmd := Refreshed(old(cache)[cmd], now, reply)]
        && out == cache[cmd].out
        && (out == old(cache)[cmd].out || out == reply)
        && (out.None? || !OutIsError(out))
    {
      if cmd !in cache {
        return reply;
      }
      var entry := cache[cmd];
      var due := now - entry.lastTry >= entry.interval;
      if due || entry.out.None? {
        entry := entry.(lastTry := now);
        if Accepts(reply) {
          entry := entry.(out := reply, lastOk := now);
        }
        assert entry == Refreshed(old(cache)[cmd], now, reply);
        RefreshKeepsClean(old(cache)[cmd], now, reply);
        StoreKeepsClean(cache, cmd, entry);
        cache := cache[cmd := entry];
      }
      out := cache[cmd].out;
      assert Clean(cache[cmd]);
    }

    /** `chrony_age`. */
    function ChronyAge(cmd: string, now: real): Age
      reads this`cache
    {
      AgeOf(if cmd in cache then Some(cache[cmd]) else None, now)
    }

    /** The ages of the three commands, as the run loop assembles them. */
    function CacheAges(now: real): Ages
      reads this`cache
    {
      Ages(ChronyAge(TrackingCmd, now), ChronyAge(SourcesCmd, now), ChronyAge(SourcestatsCmd, now))
    }

    /** Appending one tracking sample to the four histories. */
    method RecordTracking(t: Tracking)
      requires Valid()
      modifies this`offsetHistory, this`rmsHistory, this`freqHistory, this`skewHistory
      ensures Valid()
      ensures offsetHistory == Push(old(offsetHistory), t.offset)
      ensures rmsHistory == Push(old(rmsHistory), t.rms)
      ensures freqHistory == Push(old(freqHistory), t.freq)
      ensures skewHistory == Push(old(skewHistory), t.skew)
    {
      offsetHistory := Push(offsetHistory, t.offset);
      rmsHistory := Push(rmsHistory, t.rms);
      freqHistory := Push(freqHistory, t.freq);
      skewHistory := Push(skewHistory, t.skew);
    }

    /** The tracking half of a cycle: the parsed sample, if the output
        passes the error check and parses, joins the four histories. */
    method RecordSample(trackingOut: Option<string>)
      requires Valid()
      requires trackingOut.Some? ==> TrackingParser.WellFormed(trackingOut.value)
      modifies this`offsetHistory, this`rmsHistory, this`freqHistory, this`skewHistory
      ensures Valid()
      ensures var t := TrackingOf(trackingOut);
        && (t.None? ==> offsetHistory == old(offsetHistory) && rmsHistory == old(rmsHistory)
                        && freqHistory == old(freqHistory) && skewHistory == old(skewHistory))
        && (t.Some? ==> offsetHistory == Push(old(offsetHistory), t.value.offset)
                        && rmsHistory == Push(old(rmsHistory), t.value.rms)
                        && freqHistory == Push(old(freqHistory), t.value.freq)
                        && skewHistory == Push(old(skewHistory), t.value.skew))
    {
      var t := TrackingOf(trackingOut);
      if t.Some? {
        RecordTracking(t.value);
      }
    }

    /** Appending the hottest CPU reading. */
    method RecordTemp(c: real)
      requires Valid()
      modifies this`tempHistory
      ensures Valid()
      ensures tempHistory == Push(old(tempHistory), c)
    {
      tempHistory := Push(tempHistory, c);
    }

    /** `health`: the sync verdict (when both sources and ages are given),
        then, if there is tracking history, the oscillator checks and the
        continuity checks against the previous call; only a call that sees
        history moves `lastMonotonic` and `lastOffset` forward. */
    method Health(sources: Option<seq<SourceRow>>, ages: Option<Ages>, now: real) returns (alerts: seq<Alert>)
      modifies this`lastOffset, this`lastMonotonic
      ensures alerts == HealthAlerts(sources, ages, offsetHistory, rmsHistory, freqHistory, skewHistory,
                                     old(lastOffset), now - old(lastMonotonic))
      ensures offsetHistory == [] ==> lastOffset == old(lastOffset) && lastMonotonic == old(lastMonotonic)
      ensures offsetHistory != [] ==> lastOffset == Some(Last(offsetHistory)) && lastMonotonic == now
    {
      alerts := [];
      if sources.Some? && ages.Some? {
        alerts := ChronySyncHealth(sources.value, ages.value);
      }
      assert alerts == SyncPart(sources, ages);
      if offsetHistory == [] {
        return;
      }
      var tail := LatestSampleAlerts(now);
      alerts := alerts + tail;
    }

    /** The part of `health` that needs tracking history: the oscillator
        checks on the latest sample, then the continuity checks against the
        previous call, after which the clock and the offset are carried
        forward. */
    method LatestSampleAlerts(now: real) returns (alerts: seq<Alert>)
      requires offsetHistory != []
      modifies this`lastOffset, this`lastMonotonic
      ensures alerts == OscillatorAlerts(Last(offsetHistory), LastOr0(rmsHistory), LastOr0(freqHistory), LastOr0(skewHistory))
                        + JumpAlerts(old(lastOffset), Last(offsetHistory), now - old(lastMonotonic))
      ensures lastOffset == Some(Last(offsetHistory)) && lastMonotonic == now
    {
      var off := offsetHistory[|offsetHistory| - 1];
      var rms := if rmsHistory != [] then rmsHistory[|rmsHistory| - 1] else 0.0;
      var freq := if freqHistory != [] then freqHistory[|freqHistory| - 1] else 0.0;
      var skew := if skewHistory != [] then skewHistory[|skewHistory| - 1] else 0.0;
      alerts := OscillatorAlerts(off, rms, freq, skew);

      var dt := now - lastMonotonic;
      lastMonotonic := now;
      alerts := alerts + JumpAlerts(lastOffset, off, dt);
      lastOffset := Some(off);
    }

    // ---------- the run loop's data collection ----------

    /** The rest of a cycle once the outputs are known: nothing when both
        the tracking and the sources outputs are missing; otherwise the
        tracking sample (if the output parses) joins the histories, and
        `health` judges the merged sources table. */
    method Observe(trackingOut: Option<string>, sourcesOut: Option<string>, sourcestatsOut: Option<string>,
                   ages: Ages, now: real) returns (alerts: Option<seq<Alert>>)
      requires Valid()
      requires trackingOut.Some? ==> TrackingParser.WellFormed(trackingOut.value)
      modifies this`offsetHistory, this`rmsHistory, this`freqHistory, this`skewHistory
      modifies this`lastOffset, this`lastMonotonic
      ensures Valid()
      ensures trackingOut.None? && sourcesOut.None? ==>
        && alerts.None?
        && offsetHistory == old(offsetHistory) && rmsHistory == old(rmsHistory)
        && freqHistory == old(freqHistory) && skewHistory == old(skewHistory)
        && lastOffset == old(lastOffset) && lastMonotonic == old(lastMonotonic)
      ensures trackingOut.Some? || sourcesOut.Some? ==>
        var t := TrackingOf(trackingOut);
        && (t.None? ==> offsetHistory == old(offsetHistory) && rmsHistory == old(rmsHistory)
                        && freqHistory == old(freqHistory) && skewHistory == old(skewHistory))
        && (t.Some? ==> offsetHistory == Push(old(offsetHistory), t.value.offset)
                        && rmsHistory == Push(old(rmsHistory), t.value.rms)
                        && freqHistory == Push(old(freqHistory), t.value.freq)
                        && skewHistory == Push(old(skewHistory), t.value.skew))
        && alerts == Some(HealthAlerts(
             Some(MergedAll(SourcesOf(sourcesOut), StatsOf(sourcestatsOut))),
             Some(ages), offsetHistory, rmsHistory, freqHistory, skewHistory,
             old(lastOffset), now - old(lastMonotonic)))
    {
      if trackingOut.None? && sourcesOut.None? {
        return None;
      }
      RecordSample(trackingOut);
      var sources := ParsedSources(sourcesOut, sourcestatsOut);
      ghost var carried, gap := lastOffset, now - lastMonotonic;
      assert carried == old(lastOffset) && gap == now - old(lastMonotonic);
      var hs := Health(Some(sources), Some(ages), now);
      assert hs == HealthAlerts(Some(sources), Some(ages), offsetHistory, rmsHistory, freqHistory, skewHistory,
                                carried, gap);
      alerts := Some(hs);
    }

    /** The first half of a cycle: the three cached queries in the run
        loop's order, their ages, and the temperature sample. */
    method Collect(now: real, trackingReply: Option<string>, sourcesReply: Option<string>,
                   sourcestatsReply: Option<string>, tempMax: Option<real>)
      returns (trackingOut: Option<string>, sourcesOut: Option<string>, sourcestatsOut: Option<string>, ages: Ages)
      requires Valid()
      modifies this`cache, this`tempHistory
      ensures Valid()
      ensures cache == Fetched(old(cache), now, trackingReply, sourcesReply, sourcestatsReply)
      ensures trackingOut == cache[TrackingCmd].out && sourcesOut == cache[SourcesCmd].out
      ensures sourcestatsOut == cache[SourcestatsCmd].out
      ensures trackingOut == old(cache)[TrackingCmd].out || trackingOut == trackingReply
      ensures ages == CacheAges(now)
      ensures tempHistory == if tempMax.Some? then Push(old(tempHistory), tempMax.value) else old(tempHistory)
    {
      assert TrackingCmd != SourcesCmd && TrackingCmd != SourcestatsCmd && SourcesCmd != SourcestatsCmd;
      trackingOut := ChronycCached(TrackingCmd, now, trackingReply);
      sourcesOut := ChronycCached(SourcesCmd, now, sourcesReply);
      sourcestatsOut := ChronycCached(SourcestatsCmd, now, sourcestatsReply);
      ages := CacheAges(now);
      if tempMax.Some? {
        RecordTemp(tempMax.value);
      }
    }
  }

  /** The sources table `health` sees: parsed when the sources output passes
      the error check, then merged with the sourcestats map. */
  method ParsedSources(sourcesOut: Option<string>, sourcestatsOut: Option<string>) returns (sources: seq<SourceRow>)
    ensures sources == MergedAll(SourcesOf(sourcesOut), StatsOf(sourcestatsOut))
  {
    var rows: seq<SourceRow> := [];
    if !OutIsError(sourcesOut) {
      rows := SourcesParser.ParseSourcesV(sourcesOut.value);
    }
    var ssMap: map<string, StatsRow> := map[];
    if !OutIsError(sourcestatsOut) {
      ssMap := SourcestatsParser.ParseSourcestatsV(sourcestatsOut.value);
    }
    sources := MergeTable(rows, ssMap);
  }

  /** `merge_sourcestats` run on a fresh list holding the parsed rows. */
  method MergeTable(rows: seq<SourceRow>, ssMap: map<string, StatsRow>) returns (sources: seq<SourceRow>)
    ensures sources == MergedAll(rows, ssMap)
  {
    var table := new SourceRow[|rows|](i requires 0 <= i < |rows| => rows[i]);
    SourcestatsParser.MergeSourcestats(table, ssMap);
    sources := table[..];
  }
}
