# ChronyTop telemetry engine in Dafny

ChronyTop is a terminal dashboard for the chrony NTP daemon. Its `TimeTop`
class holds a small telemetry engine. The engine:

- runs `chronyc tracking`, `chronyc sources -v` and `chronyc sourcestats -v`
  through a rate-limited cache that keeps the last good output when a query
  fails;
- parses the three reports;
- joins the sources table with the per-source regression statistics;
- scores every source for trust;
- derives the network noise, temperature/frequency coupling and sync
  health verdicts;
- keeps bounded histories of the tracking samples, and carries the
  previous offset and clock reading from one `health` call to the next.

This project models that engine and proves what its contracts state.

Modules, one per file:

| module | file | contents |
|---|---|---|
| `Wrappers` | `wrappers.dfy` | `Option` |
| `Seqs` | `seqs.dfy` | generic filter and filter-map over sequences, with their concatenation laws |
| `Text` | `text.dfy` | the Python `str` behaviour the parsers use: `isspace`, `strip`, `rstrip(c)`, `startswith`, `in`, `split()`, `" ".join`, `splitlines()` |
| `Numbers` | `numbers.dfy` | `int()` and `float()` on a token, octal and decimal digit strings, the number-with-unit pattern, `_to_seconds`, `_parse_span_seconds`, `2 ** p` |
| `Records` | `records.dfy` | tracking sample, source row, statistics row, cache ages, alerts and severities |
| `TrackingParser` | `tracking.dfy` | `parse_tracking` |
| `SourcesParser` | `sources.dfy` | `_normalize_name` and `parse_sources_v` |
| `SourcestatsParser` | `sourcestats.dfy` | `parse_sourcestats_v` and `merge_sourcestats` |
| `Trust` | `trust.dfy` | `source_trust` |
| `Diagnostics` | `diagnostics.dfy` | `selected_poll_seconds`, `reach_dots`, `network_noise_indicator` with its median, `temp_freq_coupling` |
| `Health` | `health.dfy` | `chrony_sync_health` and the alert list of `health` |
| `Monitor` | `monitor.dfy` | the cache, the bounded histories and class `TimeTop`, with the data collection of one run-loop pass |

Form of the model:

- The state-changing parts are imperative Dafny, each proved against a
  specification function:
  - `TimeTop` is a class. Its fields are the cache map, the five histories,
    `lastOffset` and `lastMonotonic`.
  - `ChronycCached` updates one cache entry in place.
  - `Health` advances the carried offset and clock.
  - The two table parsers are loops over the lines.
  - `source_trust` accumulates its score and flags step by step.
  - `chrony_sync_health` counts in a loop.
  - `merge_sourcestats` writes into an array of rows.
- The rest is functions and lemmas.
- The clock reading `now` and the text `chronyc` returns (`reply`) are
  parameters, because the model does not read a clock or run a process.
- Regular expressions are replaced by deterministic matchers. Where a
  pattern can match in more than one way at a given start (the
  source-line pattern `^[\^\=\#\?\~\-\+]{1,2}[\*\+\-\?x]?\s` reads
  "^+ " either as two mode characters or as a mode and a state), the
  code only uses whether it matches, so the way it matches cannot change
  a result.
- The `System time` pattern is matched in parts, one per stretch of the
  regular expression: the label, the colon after a whitespace run
  (`MatchColon`), the value after another run (`MatchValue`), the
  `seconds` word (`MatchDirection`) and the direction word
  (`MatchWord`, `DirectionWord`).

## Model

| member | source | states |
|---|---|---|
| Monitor.OutIsErrorIff | python/chronytop.py:128-143 | an output is rejected exactly when it is blank or one of the six needles occurs in it; stripping never adds or removes a needle |
| Monitor.DigitsOf506AreRejected | python/chronytop.py:128-143 | the bare needle "506" rejects a healthy tracking line, newline included, whose offset contains those digits |
| Monitor.NeedleRejects | python/chronytop.py:128-143 | any output in which one of the six needles occurs, surrounding whitespace and trailing newline included, is treated as an error |
| Monitor.Refreshed | python/chronytop.py:145-159 | the interval never changes; a due call, or one with no output cached, stamps `last_try := now`; any other call leaves the entry as it was; `out` changes only to the reply, and only when the reply passes the error check, with `last_ok := now`; `last_ok` changes only to `now` together with storing the reply |
| Monitor.AcceptedIsNonBlank | python/chronytop.py:128-135 | output that passes the error check is present and not blank |
| Monitor.RejectedReplyKeepsOutput | python/chronytop.py:150-158 | a due attempt whose reply is None, blank or an error sets only `last_try := now`; `out` and `last_ok` stay |
| Monitor.AcceptedReplyIsStored | python/chronytop.py:150-158 | a due attempt with an accepted reply stores it as `out` and sets `last_try` and `last_ok` to `now` |
| Monitor.NotDueIsUntouched | python/chronytop.py:150-159 | within the interval, with an output cached, the entry is unchanged |
| Monitor.RefreshKeepsClean | python/chronytop.py:145-159 | a refresh never stores an output that the error check rejects |
| Monitor.StoreKeepsClean | python/chronytop.py:145-159 | storing a clean entry keeps every entry of the cache clean |
| Monitor.SecondCallIsCached | python/chronytop.py:150-159 | with a positive interval, once an output is cached a second call at the same instant changes nothing |
| Monitor.AgeOf | python/chronytop.py:161-167 | `chrony_age` is `None` exactly without an entry, infinite exactly while `last_ok <= 0`, and otherwise a non-negative number of seconds |
| Monitor.AgeAfterRefresh | python/chronytop.py:150-167 | right after an accepted reply at a positive time the age is 0; after a rejected one it is the age before the call |
| Monitor.Push | python/chronytop.py:56-62 | a `deque(maxlen=120)` append: the length grows by one up to 120 and then stays at 120, and the result is the newest suffix of the old history followed by the new sample |
| Monitor.PushKeepsNewest | python/chronytop.py:56-62 | a `deque(maxlen=120)` append keeps at most 120 samples, ends with the new one, and drops the oldest only when full |
| Monitor.AcceptedTrackingYieldsSample | python/chronytop.py:1022-1027 | a tracking output yields a sample exactly when it passes the error check |
| Monitor.TimeTop.constructor | python/chronytop.py:54-75 | three cache entries with no output, times 0 and intervals 1 s, 5 s and 20 s; empty histories, no last offset, and the starting clock |
| Monitor.TimeTop.ChronycCached | python/chronytop.py:145-159 | a command without an entry is run directly and changes nothing; otherwise the entry becomes `Refreshed(entry, now, reply)`, nothing else changes, and the cached output is returned, which is clean |
| Monitor.TimeTop.RecordTracking | python/chronytop.py:1023-1027 | offset, rms, freq and skew each receive one bounded append of the sample's field |
| Monitor.TimeTop.RecordSample | python/chronytop.py:1022-1027 | the histories grow by the parsed sample exactly when the output passes the error check and parses; otherwise they are unchanged |
| Monitor.TimeTop.RecordTemp | python/chronytop.py:1010-1012 | the temperature history receives one bounded append |
| Monitor.TimeTop.Health | python/chronytop.py:648-690 | the alerts are `HealthAlerts` of the inputs, the histories and the carried values; `lastOffset` and `lastMonotonic` move forward only when there is tracking history |
| Monitor.TimeTop.LatestSampleAlerts | python/chronytop.py:659-690 | the oscillator checks on the latest samples, then the jump checks against the carried offset and clock; afterwards the latest offset and `now` are carried |
| Monitor.TimeTop.Collect | python/chronytop.py:999-1012 | the three cached queries in run-loop order give `Fetched(old cache, now, replies)`, their outputs and ages, and a bounded temperature append exactly when a reading exists |
| Monitor.TimeTop.Observe | python/chronytop.py:1014-1094 | nothing when both the tracking and the sources outputs are missing; otherwise the sample update of `RecordSample` and the `health` alerts for the merged table |
| Monitor.ParsedSources | python/chronytop.py:1029-1031 | the table `health` sees is the parsed sources table (empty on error) merged with the parsed statistics (empty on error) |
| Monitor.MergeTable | python/chronytop.py:1031 | merging in place on a fresh array gives the row-by-row merge |
| TrackingParser.ParseTracking | python/chronytop.py:338-353 | the result is None exactly for empty input; a found system-time capture gives offset `+float(v)` after "fast" and `-float(v)` after "slow"; a found rms, frequency or skew capture gives `float` of the capture; each field whose line is not found is 0.0 |
| TrackingParser.FieldOr0 | python/chronytop.py:185-187 | a found capture gives `float` of the captured text; a field that is not found becomes 0.0 |
| TrackingParser.OffsetFollowsDirection | python/chronytop.py:338-345 | in any report whose first `System time` line has the label, a whitespace run, `:`, a run, the value `v`, a run, `seconds`, a run and `fast` or `slow`, placed after any earlier lines, the value is a float and the offset is `+v` after "fast" and `-v` after "slow", whatever follows the line |
| TrackingParser.SystemTimeFound | python/chronytop.py:341 | in such a report the system-time search finds that line, with the capture spanning exactly `v` and the direction word it carries |
| TrackingParser.SearchLabeled | python/chronytop.py:185-187 | when the search finds no match, no match starts at any later position |
| TrackingParser.SearchSystemTime | python/chronytop.py:341 | when the search finds no match, no match starts at any later position |
| SourcesParser.NormalizeName | python/chronytop.py:189-192 | the key is the name with every trailing `>` removed |
| SourcesParser.NormalizeIdempotent | python/chronytop.py:189-192 | normalising twice gives the same key |
| SourcesParser.NormalizeDropsMarkers | python/chronytop.py:189-192 | any number of `>` after a name that does not end in `>` is dropped |
| SourcesParser.FindOffset | python/chronytop.py:403 | a found position holds an offset match (a number with a unit, then `[`) and no match starts earlier; None means no match starts anywhere |
| SourcesParser.FindErr | python/chronytop.py:406 | a found position holds `+/-`, optional whitespace and a number with a unit, and no match starts earlier; None means no match starts anywhere |
| SourcesParser.SearchOffset | python/chronytop.py:403-405 | None exactly when no offset match starts anywhere; otherwise the seconds value of the leftmost match |
| SourcesParser.SearchErr | python/chronytop.py:406-408 | None exactly when no error-bound match starts anywhere; otherwise the seconds value of the number of the leftmost match |
| SourcesParser.ParseRow | python/chronytop.py:373-431 | a row is dropped exactly when it has fewer than 6 tokens; it keeps the mode, name, key, raw reach text and line; stratum, poll and last sample are `int()` of tokens 2, 3 and 5; reach is known exactly when token 4 is all octal digits, and is then its octal value; offset and error are the two searches over the joined remaining tokens; statistics are absent |
| SourcesParser.ReachOfPrinted | python/chronytop.py:390-395 | a register printed in octal is read back as that register |
| SourcesParser.DataLinesFromLastSection | python/chronytop.py:359-371 | every collected line lies after the last `====` line and is a candidate data line |
| SourcesParser.DividerResets | python/chronytop.py:360-362 | a `====` line discards all lines collected before it |
| SourcesParser.SourcesComeFromLastSection | python/chronytop.py:356-431 | every parsed row comes from a candidate line with at least 6 tokens after the last divider, and carries no statistics |
| SourcesParser.ParseSourcesV | python/chronytop.py:356-431 | the loop's result equals `ParseSources(out)` |
| SourcesParser.CollectDataLines | python/chronytop.py:358-371 | the collecting loop equals `DataLines(lines)` |
| SourcesParser.CollectLine | python/chronytop.py:359-371 | one line either resets, is appended, or is skipped |
| SourcesParser.ParseDataLines | python/chronytop.py:373-431 | the second loop parses every collected line and drops short ones |
| SourcestatsParser.PreambleIgnored | python/chronytop.py:439-444 | lines before the first `====` line cannot change the result |
| SourcestatsParser.TokenQuantity | python/chronytop.py:478-485 | a value exactly when the whole token is a number with a unit, and then the number converted to seconds by its unit |
| SourcestatsParser.ParseStatsRow | python/chronytop.py:453-485 | a row is dropped exactly when it has fewer than 8 tokens; it keeps the name, key and line; np and nr are `int()` of tokens 1 and 2, the span is `_parse_span_seconds` of token 3, freq and skew are `float()` of tokens 4 and 5, and offset and deviation are the whole-token quantities of tokens 6 and 7 |
| SourcestatsParser.StatsMapContents | python/chronytop.py:486-498 | the dictionary's keys are exactly the rows' keys, and each key maps to a row with that key |
| SourcestatsParser.StatsMapLastWins | python/chronytop.py:486 | a repeated key keeps its last row |
| SourcestatsParser.ParseSourcestatsV | python/chronytop.py:434-499 | the loop's result equals `ParseSourcestats(out)` |
| SourcestatsParser.StatsStep | python/chronytop.py:437-486 | one pass of the loop keeps the state equal to the specification of the lines seen so far |
| SourcestatsParser.ScanStatsLine | python/chronytop.py:437-486 | a divider turns the table on; a row is stored under its key only inside the table |
| SourcestatsParser.Merged | python/chronytop.py:501-514 | a source whose key is in the map takes its seven statistics fields; no other field changes, and a source with no match is unchanged |
| SourcestatsParser.MergeIdempotent | python/chronytop.py:501-514 | merging twice is the same as merging once |
| SourcestatsParser.MergeSourcestats | python/chronytop.py:501-514 | every array element becomes the merge of its old value |
| Numbers.ToSeconds | python/chronytop.py:194-204 | ms, us and ns (in any letter case) divide by 1e3, 1e6 and 1e9; any other unit passes the value through; the sign is kept |
| Numbers.SpanSeconds | python/chronytop.py:206-224 | a value exactly when the token is non-empty and, stripped, is digits optionally followed by one of s, m, h, d (so any other token gives None); the value is never negative |
| Numbers.SpanOfCount | python/chronytop.py:206-215 | a count with no unit reads back as that many seconds |
| Numbers.SpanOfDigitsWithUnit | python/chronytop.py:206-224 | digits followed by s, m, h or d read back as the count times 1, 60, 3600 or 86400 |
| Numbers.PyInt | python/chronytop.py:379-386 | `int()` succeeds exactly on the integer literals Python accepts |
| Numbers.IntRoundTrip | python/chronytop.py:379-386 | `int(str(n))` is `n`, and `int("-" + str(n))` is `-n` |
| Numbers.FloatOfInteger | python/chronytop.py:469-476 | `float(str(n))` is `n`, and with a minus sign it is `-n` |
| Numbers.PyFloat | python/chronytop.py:469-476 | a parsed value is never positive after a minus sign and never negative without one |
| Numbers.OctalRoundTrip | python/chronytop.py:390-393 | `int(oct_digits(n), 8)` is `n` |
| Numbers.UnitAt | python/chronytop.py:400-404 | a unit found is one of the alternatives and occurs at the position; None means no alternative occurs there |
| Numbers.MatchNumber | python/chronytop.py:403-408 | a number matches exactly when a digit follows the optional sign; the match ends on a digit and is maximal |
| Numbers.MatchIsFloat | python/chronytop.py:403-408 | the value of a number match is `float()` of the matched text |
| Numbers.QuantityIsSeconds | python/chronytop.py:403-408 | the value of a number-with-unit match is `_to_seconds` of `float()` of the number and the unit |
| Numbers.Pow2Step | python/chronytop.py:530 | `2 ** (p + 1)` is twice `2 ** p`, for negative `p` too |
| Trust.SourceTrust | python/chronytop.py:693-814 | the step-by-step score and flags equal the specification; the score is an integer in [0,100]; severity 1 implies a score of at least 80 and neither UNREACH nor BAD; severity 2 implies a score of at least 55; severity 3 holds exactly when the score is below 55; the severity is `TrustSeverity` of the score and flags |
| Trust.TrustScore | python/chronytop.py:805 | the score lies in [0,100], equals the raw sum when that is in range, and is 0 when the sum is negative |
| Trust.TrustSeverity | python/chronytop.py:807-812 | severity 1 holds exactly when the score is at least 80 and neither UNREACH nor BAD is flagged; severity 3 holds exactly when the score is below 55 |
| Trust.SeverityBands | python/chronytop.py:805-814 | the clamped score lies in [0,100], and the severity bands hold for every source |
| Trust.UnreachableWithEmptyRegister | python/chronytop.py:706-729 | a source with `?` in its mode and reach 0 is flagged UNREACH first and RCH=0, its raw score is at most 9, and it is always severity 3 |
| Trust.FlagsInEvaluationOrder | python/chronytop.py:703-803 | the flags appear in the order the rules are evaluated |
| Trust.NonPositiveSteps | python/chronytop.py:706-803 | only the marker and stratum rules can add points (at most 7 and 2) |
| Trust.LargerOffsetNeverHelps | python/chronytop.py:742-754 | a larger absolute offset never raises the raw score |
| Trust.LargerStddevNeverHelps | python/chronytop.py:768-781 | a larger regression deviation never raises the raw score |
| Trust.OlderSampleNeverHelps | python/chronytop.py:731-740 | an older last sample never raises the raw score |
| Trust.HealthySourceScoresFull | python/chronytop.py:693-814 | a selected, fully reachable, fresh, precise stratum-1 source scores 100 with no flags and severity 1 |
| Trust.ApplyMarkers | python/chronytop.py:706-718 | the mode-marker rules add their delta and flags |
| Trust.ApplyReach | python/chronytop.py:720-729 | the reach rules add their delta and flag |
| Trust.ApplyLastRx | python/chronytop.py:731-740 | the last-sample rules add their delta and flag |
| Trust.ApplyOffset | python/chronytop.py:742-754 | the offset rules add their delta and flag |
| Trust.ApplyErr | python/chronytop.py:756-766 | the error-bound rules add their delta and flag |
| Trust.ApplyStddev | python/chronytop.py:768-781 | the deviation rules add their delta and flag |
| Trust.ApplyFskew | python/chronytop.py:783-793 | the skew rules add their delta and flag |
| Trust.ApplyStratum | python/chronytop.py:795-803 | the stratum rules add their delta and flag |
| Diagnostics.SelectedIndex | python/chronytop.py:537-543 | the first source with `*` in its mode, or the first source when none has one |
| Diagnostics.SelectedPollSeconds | python/chronytop.py:517-530 | no name exactly for an empty table; otherwise the selected source's name, and `2 ** poll` exactly when its poll is known |
| Diagnostics.PollIntervalDoubles | python/chronytop.py:517-530 | raising the selected source's poll exponent by one doubles the reported interval |
| Diagnostics.ReachDots | python/chronytop.py:227-238 | eight symbols; "????????" for an unknown register; otherwise filled or empty dots |
| Diagnostics.ReachDotsRoundTrip | python/chronytop.py:227-238 | for a register below 256, reading the dots back in the drawn order gives the register, for both orders |
| Diagnostics.NewestPollIsRightmost | python/chronytop.py:227-238 | with `newest_left` set, bit 0 (the newest poll) is drawn rightmost |
| Diagnostics.MedianBetweenValues | python/chronytop.py:553 | the median lies between two of the values |
| Diagnostics.MedianOfPermutation | python/chronytop.py:553 | the median depends only on the multiset of values |
| Diagnostics.MedianOfConstant | python/chronytop.py:553 | the median of equal values is that value |
| Diagnostics.SortSortsAndPermutes | python/chronytop.py:553 | the sort the median reads from is sorted and a permutation |
| Diagnostics.Stddevs | python/chronytop.py:549 | a value is in the list exactly when some source has it as its regression deviation, and the list is no longer than the table |
| Diagnostics.StddevsCount | python/chronytop.py:549-553 | each deviation occurs in the list once for every source that has it, so duplicates are kept for `statistics.median` as the comprehension keeps them |
| Diagnostics.NetworkNoise | python/chronytop.py:533-572 | no sources is reported exactly for an empty table; every unmeasured verdict has severity 2 |
| Diagnostics.NoiseUnmeasured | python/chronytop.py:545-551 | no deviation for the selected source, or fewer than two deviations, is each reported exactly when it holds |
| Diagnostics.Measure | python/chronytop.py:553-569 | the measurement keeps the selected and median deviations, and its ratio times the median floored at 50 µs is the selected deviation |
| Diagnostics.NoiseMeasurement | python/chronytop.py:545-569 | a measurement uses the selected source's deviation and the median of all known deviations |
| Diagnostics.NoiseThresholds | python/chronytop.py:561-569 | OUTLIER holds exactly when the ratio is at least 3 and the gap at least 0.5 ms; ELEVATED holds exactly when the ratio is at least 2 and the gap at least 0.2 ms but the OUTLIER test fails; only OUTLIER is severity 3 |
| Diagnostics.QuietSelectedIsOk | python/chronytop.py:555-569 | a selected source no noisier than the median is OK |
| Diagnostics.UniformNoiseIsOk | python/chronytop.py:549-569 | when all deviations are equal the verdict is OK |
| Diagnostics.TempFreqCoupling | python/chronytop.py:318-335 | no data exactly when either history has fewer than 3 samples; severity 1 exactly for stable or coupled movement |
| Diagnostics.CouplingClassifies | python/chronytop.py:326-335 | stable, both up, both down and diverge, each as an exact condition on the two changes |
| Diagnostics.CouplingMirror | python/chronytop.py:326-335 | negating both histories swaps both-up and both-down and keeps the other verdicts |
| Diagnostics.CouplingBoundary | python/chronytop.py:329-335 | a temperature change of exactly 0.2 (temperatures 0.0, 0.0, 0.2) is neither stable nor rising, so with a frequency rise it counts as diverging |
| Health.ChronySyncHealth | python/chronytop.py:575-645 | the loop with early exits computes `SyncAlerts(sources, ages)` |
| Health.CountSources | python/chronytop.py:606-628 | the loop counts reachable, selected and combined sources, and finds whether any sample is recent |
| Health.AppendVerdict | python/chronytop.py:630-643 | the hard-failure and degraded/OK alerts are appended as specified |
| Health.StaleAlerts | python/chronytop.py:591-596 | only staleness alerts |
| Health.NeverAnsweredMeansDaemonDown | python/chronytop.py:587-589 | an infinite tracking or sources age gives exactly one severity-3 alert |
| Health.StaleSourcesOnlyStaleness | python/chronytop.py:593-600 | a sources age above 15 s gives only staleness alerts, including the sources one |
| Health.EmptySourcesEndsTheList | python/chronytop.py:602-604 | an empty table ends the list with NO NTP SOURCES PARSED, after staleness alerts only |
| Health.NoReachableAndNoSelected | python/chronytop.py:631-634 | with no reachable and no selected source, both alerts fire together |
| Health.SyncOkIsAlone | python/chronytop.py:641-643 | CHRONY SYNC: OK appears only as the sole alert |
| Health.HealthySyncIsOk | python/chronytop.py:606-645 | fresh ages, at least two reachable, one selected, one combined source and a recent sample give exactly the OK alert |
| Health.CountZero | python/chronytop.py:606-633 | a count is 0 exactly when no source satisfies the test |
| Health.OscillatorCodes | python/chronytop.py:659-676 | each oscillator alert fires exactly under its own threshold on magnitudes, and at most one of the two offset alerts fires |
| Health.OscillatorSignFree | python/chronytop.py:659-662 | the checks depend only on magnitudes |
| Health.JumpCodes | python/chronytop.py:682-687 | TIME JUMP holds exactly for a previous offset and a delta above 250 ms, SUSPEND exactly for a previous offset and a gap above 15 s; both are severity 3 |
| Health.HealthOrder | python/chronytop.py:648-657 | the sync verdict comes first, and without tracking history it is the whole list |
| Text.StripKeepsContains | python/chronytop.py:133-143 | for a needle that neither starts nor ends with whitespace, the stripped text contains it exactly when the text does |
| Text.StripEmptyIffBlank | python/chronytop.py:133-135 | `strip()` is empty exactly for blank text |
| Text.Strip | python/chronytop.py:133 | the stripped text neither starts nor ends with whitespace |
| Text.WordsOfJoin | python/chronytop.py:401 | `" ".join` of tokens splits back into the same tokens |
| Text.Lines | python/chronytop.py:358 | no line holds a line boundary, and only empty text has no lines |
| Text.LinesOfLine | python/chronytop.py:358 | non-empty text without a line boundary is a single line |
| Text.LinesOfBreak | python/chronytop.py:358 | a one-character boundary (a `\r` only when no `\n` follows it) ends the line before it, and splitting goes on after it; a final boundary adds no empty line |
| Text.LinesOfCrLf | python/chronytop.py:358 | `\r\n` is one boundary: the line before it, then the lines after it |
| Text.ContainsAt | python/chronytop.py:143 | the substring test holds exactly when the needle occurs at some index |
| Records.Severity.Level | python/chronytop.py:535-572 | the colour pair is 1, 2 or 3, with 1 for OK and 3 for critical |

## Left out

- Curses rendering, key handling and the display parts of the run loop are
  not modelled. This covers the selected-poll, noise and coupling lines
  that the loop only prints.
- Subprocess execution in `run_chronyc` is not modelled: its result is the
  `reply` parameter.
- sysfs temperature discovery and reads are not modelled: the hottest
  reading is the `tempMax` parameter of `Collect`.
- Clock reads are not modelled. `now` is a parameter. In Python,
  `chrony_age` and `health` read the monotonic clock again; here one
  `now` serves the whole pass.
- Graph scaling, `window_stats` and the `fmt_*` string formatting are not
  modelled; they only affect the display.
- Alert and indicator message texts are not modelled: each alert is a
  code plus a severity.
- Floats are exact reals. Rounding is not modelled in `float()`, in the
  `* 1000.0` scalings, in the divisions (the unit conversion of
  `_to_seconds`, the mean of the two middle values in
  `statistics.median`, and the ratio in `network_noise_indicator`), or in
  the subtractions of
  `temp_freq_coupling`, of the jump and gap checks of `health` and of
  `chrony_age`. A difference that lands on a threshold in doubles can
  therefore fall on the other side of it here.
- The regular-expression matchers read `\d` as an ASCII digit. Python's
  `\d` on a `str` also matches other Unicode decimal digits.
- Numbers.PyFloat: only plain decimal notation with an optional sign is
  parsed. Exponents, `inf`, `nan` and underscores give None here, while
  Python would accept them.
- Numbers.PyInt: only ASCII digits are accepted. Python's `int()` also
  accepts other Unicode decimal digits.
- TrackingParser.ParseTracking: it requires every `[-\d.]+` capture to be
  a valid float. Where Python's `float()` would raise on a malformed
  capture, the model has a precondition instead.
- Monitor.TimeTop.Observe: it inherits the same well-formed-capture
  precondition for the tracking output.
- The `unusable` counter of `chrony_sync_health` is not modelled: it is
  counted but never read.
- Diagnostics.TempFreqCoupling: the window is a natural number, so a
  negative `window` argument is not modelled. The source only passes 20.
- Diagnostics.ReachDots: only the eight low bits are drawn, as in the
  source, so a register above 255 does not read back.
- The frequency direction ("ppm slow"/"ppm fast") is ignored, as the
  source ignores it.
- A list or dictionary of Python dicts becomes a sequence, array or map
  of datatype values. Aliasing between the dicts is not modelled.
- The run loop's data collection is proved as its two halves,
  `Collect` then `Observe`. There is no single method that composes them.

## Notes on the source

- The bare needle "506" is kept exactly as written. As a result, any
  output containing those three digits is rejected as an error, including
  a healthy report whose numbers contain them. `DigitsOf506AreRejected`
  exhibits this.
- `merge_sourcestats` writes exactly seven `ss_*` fields, as the code does.
- The `reach_dots` docstring says newest on the left. With
  `newest_left=True` the bits are reversed, so bit 0, the newest poll,
  ends up rightmost. The model follows the code
  (`NewestPollIsRightmost`).
