/** The values that flow through the monitor in one poll cycle: the parsed
    tracking sample, one row per upstream source (later enriched with its
    regression statistics), one statistics row per source, cache ages, and
    the alerts and indicators handed to the display. */
module Records {
  import opened Wrappers

  /** The three tiers the display maps to colour pairs 1 (green), 2 (yellow)
      and 3 (red). */
  datatype Severity = Ok | Warn | Critical {
    function Level(): (n: int)
      ensures 1 <= n <= 3
      ensures (n == 1 <==> this == Ok) && (n == 3 <==> this == Critical)
    {
      match this
      case Ok => 1
      case Warn => 2
      case Critical => 3
    }
  }

  /** One `chronyc tracking` snapshot: offset in seconds (positive when the
      local clock is ahead), RMS offset in seconds, frequency and skew in
      ppm. */
  datatype Tracking = Tracking(offset: real, rms: real, freq: real, skew: real)

  /** One row of `chronyc sources -v`, with the seven `ss_*` fields that the
      merge with `chronyc sourcestats -v` fills in (all `None` until then). */
  datatype SourceRow = SourceRow(
    ms: string,              // mode and state markers, e.g. "^*"
    name: string,            // name or address as printed
    key: string,             // name with trailing '>' removed
    stratum: Option<int>,
    poll: Option<int>,       // log2 of the polling interval in seconds
    reach: Option<nat>,      // reachability register, None unless octal
    reachOctal: string,      // the register as printed
    lastRx: Option<int>,     // age of the last sample
    offset: Option<real>,    // measured offset, seconds
    err: Option<real>,       // error bound, seconds
    ssNp: Option<int>,
    ssNr: Option<int>,
    ssSpan: Option<real>,
    ssFreq: Option<real>,
    ssFskew: Option<real>,
    ssOffset: Option<real>,
    ssStddev: Option<real>,
    raw: string)

  /** One row of `chronyc sourcestats -v`. */
  datatype StatsRow = StatsRow(
    name: string,
    key: string,
    np: Option<int>,         // number of samples
    nr: Option<int>,         // number of runs of residuals
    span: Option<real>,      // seconds covered by the samples
    freq: Option<real>,      // ppm
    fskew: Option<real>,     // ppm
    offset: Option<real>,    // seconds
    stddev: Option<real>,    // seconds
    raw: string)

  /** What `chrony_age` reports for one command: the command is not in the
      cache (Python `None`), it never succeeded (`inf`), or the seconds since
      its last success. */
  datatype Age = NoEntry | Infinite | Finite(secs: real)

  /** The ages of the three cached commands, as assembled each cycle. */
  datatype Ages = Ages(tracking: Age, sources: Age, sourcestats: Age)

  /** `age > limit` as Python evaluates it: `None` is never stale and `inf`
      exceeds every limit. */
  predicate Exceeds(a: Age, limit: real) {
    match a
    case NoEntry => false
    case Infinite => true
    case Finite(x) => x > limit
  }

  datatype AlertCode =
    | DaemonDown          // never got valid output
    | TrackingStale
    | SourcesStale
    | SourcestatsStale
    | NoSourcesParsed
    | NoReachable
    | NoSelected
    | AllRxStale
    | DegradedOneReachable
    | SyncOk
    | ClockStep
    | HighOffset
    | Jitter
    | Drift
    | UnstableOscillator
    | TimeJump
    | SuspendDetected

  /** A health alert: its code and tier (the message text is display only). */
  datatype Alert = Alert(code: AlertCode, severity: Severity)

  predicate IsStaleness(c: AlertCode) {
    c == TrackingStale || c == SourcesStale || c == SourcestatsStale
  }
}
