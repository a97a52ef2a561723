/** `parse_sources_v`: one row per upstream source from the table printed
    by `chronyc sources -v`. Only rows after the last `====` divider are
    kept; a row must start with the mode/state markers and have at least six
    whitespace-separated columns. */
module SourcesParser {
  import opened Wrappers
  import opened Text
  import opened Numbers
  import opened Records
  import opened Seqs

  // ---------- names ----------

  /** `_normalize_name`: the name with every trailing `>` removed (the
      daemon marks a truncated name that way); the join key of a source. */
  function NormalizeName(name: string): (key: string)
    ensures |key| <= |name| && key == name[..|key|]
    ensures key == [] || key[|key| - 1] != '>'
    ensures forall i :: |key| <= i < |name| ==> name[i] == '>'
  {
    if name == [] then [] else RStripChar(name, '>')
  }

  /** Normalising a key again changes nothing. */
  lemma NormalizeIdempotent(name: string)
    ensures NormalizeName(NormalizeName(name)) == NormalizeName(name)
  {
    var k := NormalizeName(name);
    if k != [] {
      assert RStripChar(k, '>') == k;
    }
  }

  /** A name and the same name with any number of `>` markers appended
      share one key. */
  lemma {:induction false} NormalizeDropsMarkers(name: string, n: nat)
    requires name == [] || name[|name| - 1] != '>'
    ensures NormalizeName(name + Markers(n)) == name
    decreases n
  {
    if n > 0 {
      var s := name + Markers(n);
      assert s[..|s| - 1] == name + Markers(n - 1);
      NormalizeDropsMarkers(name, n - 1);
    } else {
      assert name + Markers(0) == name;
    }
  }

  function Markers(n: nat): (s: string)
    ensures |s| == n && forall i :: 0 <= i < n ==> s[i] == '>'
  {
    if n == 0 then [] else Markers(n - 1) + ">"
  }

  // ---------- line classification ----------

  predicate IsDivider(ln: string) {
    StartsWith(ln, "====")
  }

  /** Mode markers `[\^\=\#\?\~\-\+]`. */
  predicate IsModeChar(c: char) {
    c == '^' || c == '=' || c == '#' || c == '?' || c == '~' || c == '-' || c == '+'
  }

  /** State markers `[\*\+\-\?x]`. */
  predicate IsStateChar(c: char) {
    c == '*' || c == '+' || c == '-' || c == '?' || c == 'x'
  }

  /** `^[\^\=\#\?\~\-\+]{1,2}[\*\+\-\?x]?\s`: one or two mode markers, an
      optional state marker, then whitespace; the four disjuncts are the four
      ways the pattern can match. */
  predicate IsSourceLine(ln: string) {
    || (|ln| >= 2 && IsModeChar(ln[0]) && IsSpace(ln[1]))
    || (|ln| >= 3 && IsModeChar(ln[0]) && IsStateChar(ln[1]) && IsSpace(ln[2]))
    || (|ln| >= 3 && IsModeChar(ln[0]) && IsModeChar(ln[1]) && IsSpace(ln[2]))
    || (|ln| >= 4 && IsModeChar(ln[0]) && IsModeChar(ln[1]) && IsStateChar(ln[2]) && IsSpace(ln[3]))
  }

  /** A line that is kept as a data line when it is not a divider: not
      blank, not a header, and starting with the markers. */
  predicate IsCandidate(ln: string) {
    && Strip(ln) != []
    && !StartsWith(ln, "MS ")
    && !StartsWith(ln, "Name/IP")
    && IsSourceLine(ln)
  }

  /** The candidate lines of `ls`, in order. */
  function Candidates(ls: seq<string>): seq<string> {
    Filter(IsCandidate, ls)
  }

  /** The index just past the last divider of `ls`, 0 when there is none. */
  function LastDivEnd(ls: seq<string>): (e: nat)
    ensures e <= |ls|
    ensures e > 0 ==> IsDivider(ls[e - 1])
    ensures forall j :: e <= j < |ls| ==> !IsDivider(ls[j])
  {
    if ls == [] then 0
    else if IsDivider(ls[|ls| - 1]) then |ls|
    else LastDivEnd(ls[..|ls| - 1])
  }

  /** The data lines the first loop of `parse_sources_v` collects: the
      candidate lines after the last divider. */
  function DataLines(ls: seq<string>): seq<string> {
    Candidates(ls[LastDivEnd(ls)..])
  }

  /** Only candidate lines after the last divider are collected. */
  lemma DataLinesFromLastSection(ls: seq<string>)
    ensures forall l :: l in DataLines(ls) ==> l in ls[LastDivEnd(ls)..] && IsCandidate(l) && !IsDivider(l)
  {
    var e := LastDivEnd(ls);
    var tail := ls[e..];
    assert DataLines(ls) == Filter(IsCandidate, tail);
    FilterSound(IsCandidate, tail);
    forall l | l in DataLines(ls) ensures l in tail && IsCandidate(l) && !IsDivider(l) {
      assert l in tail && IsCandidate(l);
      var j :| 0 <= j < |tail| && tail[j] == l;
      assert ls[e + j] == l;
    }
  }

  /** What one more line does to the collected data lines: a divider
      discards them, a candidate is appended, anything else is skipped. */
  lemma DataLinesSnoc(ls: seq<string>, l: string)
    ensures DataLines(ls + [l]) ==
      if IsDivider(l) then [] else DataLines(ls) + (if IsCandidate(l) then [l] else [])
  {
    var s := ls + [l];
    assert s[..|s| - 1] == ls;
    if IsDivider(l) {
      assert LastDivEnd(s) == |s|;
      assert s[|s|..] == [];
    } else {
      var e := LastDivEnd(ls);
      assert LastDivEnd(s) == e;
      assert s[e..] == ls[e..] + [l];
      FilterConcat(IsCandidate, ls[e..], [l]);
      FilterOne(IsCandidate, l);
    }
  }

  lemma {:induction false} LastDivEndSuffix(ls: seq<string>, k: nat)
    requires k < |ls| && IsDivider(ls[k])
    ensures LastDivEnd(ls) == k + 1 + LastDivEnd(ls[k + 1..])
    decreases |ls|
  {
    var n := |ls|;
    if k == n - 1 {
    } else if IsDivider(ls[n - 1]) {
    } else {
      var init := ls[..n - 1];
      LastDivEndSuffix(init, k);
      assert init[k + 1..] == ls[k + 1..][..|ls[k + 1..]| - 1];
    }
  }

  /** A divider resets the collection: the data lines of a report are those
      of the part after any one of its dividers, so nothing before the last
      divider survives. */
  lemma DividerResets(ls: seq<string>, k: nat)
    requires k < |ls| && IsDivider(ls[k])
    ensures DataLines(ls) == DataLines(ls[k + 1..])
  {
    LastDivEndSuffix(ls, k);
    assert ls[LastDivEnd(ls)..] == ls[k + 1..][LastDivEnd(ls[k + 1..])..];
  }

  // ---------- one row ----------

  /** `([+\-]?\d+(?:\.\d+)?)(ns|us|ms|s)\[` matches at index `k`. */
  predicate OffsetAt(s: string, k: nat) {
    k <= |s| && MatchQuantity(s, k).Some? && MatchQuantity(s, k).value.end < |s|
      && s[MatchQuantity(s, k).value.end] == '['
  }

  /** `\+\/-\s*([+\-]?\d+(?:\.\d+)?)(ns|us|ms|s)` matches at index `k`; the
      number starts after the whitespace run. */
  predicate ErrAt(s: string, k: nat) {
    OccursAt(s, "+/-", k) && MatchQuantity(s, ErrNumberStart(s, k)).Some?
  }

  /** Where the number of an error-bound match at `k` starts. */
  function ErrNumberStart(s: string, k: nat): (j: nat)
    requires k + 3 <= |s|
    ensures k + 3 <= j <= |s|
  {
    k + 3 + SpaceRun(s, k + 3)
  }

  /** No offset match starts in `[a, b)`. */
  predicate NoOffsetIn(s: string, a: nat, b: nat) {
    forall j :: a <= j < b ==> !OffsetAt(s, j)
  }

  /** No error-bound match starts in `[a, b)`. */
  predicate NoErrIn(s: string, a: nat, b: nat) {
    forall j :: a <= j < b ==> !ErrAt(s, j)
  }

  lemma NoOffsetStep(s: string, a: nat, b: nat)
    requires !OffsetAt(s, a) && NoOffsetIn(s, a + 1, b)
    ensures NoOffsetIn(s, a, b)
  {
    forall j | a < j < b ensures !OffsetAt(s, j) {
      assert a + 1 <= j;
    }
  }

  lemma NoErrStep(s: string, a: nat, b: nat)
    requires !ErrAt(s, a) && NoErrIn(s, a + 1, b)
    ensures NoErrIn(s, a, b)
  {
    forall j | a < j < b ensures !ErrAt(s, j) {
      assert a + 1 <= j;
    }
  }

  /** `re.search` for the offset pattern: the leftmost match at `i` or later. */
  function FindOffset(s: string, i: nat): (k: Option<nat>)
    requires i <= |s|
    ensures k.Some? ==> i <= k.value <= |s| && OffsetAt(s, k.value) && NoOffsetIn(s, i, k.value)
    ensures k.None? ==> NoOffsetIn(s, i, |s| + 1)
    decreases |s| - i
  {
    if OffsetAt(s, i) then Some(i)
    else if i == |s| then None
    else
      var k := FindOffset(s, i + 1);
      NoOffsetStep(s, i, if k.Some? then k.value else |s| + 1);
      k
  }

  /** `re.search` for the error-bound pattern. */
  function FindErr(s: string, i: nat): (k: Option<nat>)
    requires i <= |s|
    ensures k.Some? ==> i <= k.value <= |s| && ErrAt(s, k.value) && NoErrIn(s, i, k.value)
    ensures k.None? ==> NoErrIn(s, i, |s| + 1)
    decreases |s| - i
  {
    if ErrAt(s, i) then Some(i)
    else if i == |s| then None
    else
      var k := FindErr(s, i + 1);
      NoErrStep(s, i, if k.Some? then k.value else |s| + 1);
      k
  }

  /** The measured offset in seconds: the quantity of the leftmost offset
      match, `None` when there is none. */
  function SearchOffset(s: string): (v: Option<real>)
    ensures v.None? <==> NoOffsetIn(s, 0, |s| + 1)
    ensures v.Some? ==> FindOffset(s, 0).Some? && v.value == MatchQuantity(s, FindOffset(s, 0).value).value.value
  {
    match FindOffset(s, 0)
    case None => None
    case Some(k) => Some(MatchQuantity(s, k).value.value)
  }

  /** The error bound in seconds: the quantity after the leftmost `+/-`
      that is followed by one, `None` when there is none. */
  function SearchErr(s: string): (v: Option<real>)
    ensures v.None? <==> NoErrIn(s, 0, |s| + 1)
    ensures v.Some? ==> FindErr(s, 0).Some?
    ensures v.Some? ==> v.value == MatchQuantity(s, ErrNumberStart(s, FindErr(s, 0).value)).value.value
  {
    match FindErr(s, 0)
    case None => None
    case Some(k) => Some(MatchQuantity(s, ErrNumberStart(s, k)).value.value)
  }

  /** The statistics fields are all still absent. */
  predicate NoStats(r: SourceRow) {
    && r.ssNp.None? && r.ssNr.None? && r.ssSpan.None? && r.ssFreq.None?
    && r.ssFskew.None? && r.ssOffset.None? && r.ssStddev.None?
  }

  /** The row parsed from one data line, `None` when the line has fewer than
      six columns. The reach column is decoded as octal when it consists of
      octal digits only and is otherwise unknown (`None`). */
  function ParseRow(ln: string): (r: Option<SourceRow>)
    ensures r.None? <==> |Words(ln)| < 6
    ensures r.Some? ==>
      var p := Words(ln);
      && r.value.ms == p[0] && r.value.name == p[1] && r.value.key == NormalizeName(p[1])
      && r.value.reachOctal == p[4] && r.value.raw == ln && NoStats(r.value)
      && r.value.stratum == PyInt(p[2]) && r.value.poll == PyInt(p[3]) && r.value.lastRx == PyInt(p[5])
      && (r.value.reach.Some? <==> AllOctal(p[4]))
      && (r.value.reach.Some? ==> r.value.reach.value == OctalValue(p[4]) < Pow8(|p[4]|))
      && r.value.offset == SearchOffset(Join(p[6..], " "))
      && r.value.err == SearchErr(Join(p[6..], " "))
  {
    var p := Words(ln);
    if |p| < 6 then None
    else
      var rest := Join(p[6..], " ");
      var reach := if AllOctal(p[4]) then (OctalValueBound(p[4]); Some(OctalValue(p[4]))) else None;
      Some(SourceRow(
        p[0], p[1], NormalizeName(p[1]),
        PyInt(p[2]), PyInt(p[3]), reach, p[4], PyInt(p[5]),
        SearchOffset(rest), SearchErr(rest),
        None, None, None, None, None, None, None,
        ln))
  }

  /** A register printed in octal by the daemon is read back as that
      register. */
  lemma ReachOfPrinted(ln: string, n: nat)
    requires |Words(ln)| >= 6 && Words(ln)[4] == OctalText(n)
    ensures ParseRow(ln).Some? && ParseRow(ln).value.reach == Some(n)
  {
    OctalRoundTrip(n);
  }

  /** The rows of the data lines, lines with too few columns dropped. */
  function ParseRows(ls: seq<string>): seq<SourceRow> {
    FilterMap(ParseRow, ls)
  }

  /** The table of a `sources -v` report: empty for an empty report,
      otherwise the rows of the data lines after the last divider. */
  function ParseSources(out: string): seq<SourceRow> {
    if out == [] then [] else ParseRows(DataLines(Lines(out)))
  }

  /** Every source in the table comes from a candidate line after the last
      divider of the report, has at least six columns, and carries no
      statistics yet. */
  lemma SourcesComeFromLastSection(out: string, r: SourceRow)
    requires r in ParseSources(out)
    ensures exists l :: l in Lines(out)[LastDivEnd(Lines(out))..] && IsCandidate(l) && |Words(l)| >= 6 && ParseRow(l) == Some(r)
    ensures NoStats(r)
  {
    var ls := Lines(out);
    DataLinesFromLastSection(ls);
    FilterMapSound(ParseRow, DataLines(ls));
    var l :| l in DataLines(ls) && ParseRow(l) == Some(r);
  }

  /** `parse_sources_v`: the first loop collects data lines, restarting at
      every divider; the second parses them. */
  method ParseSourcesV(out: string) returns (rows: seq<SourceRow>)
    ensures rows == ParseSources(out)
  {
    if out == [] {
      return [];
    }
    var dataLines := CollectDataLines(Lines(out));
    rows := ParseDataLines(dataLines);
  }

  /** The first loop of `parse_sources_v`. */
  method CollectDataLines(lines: seq<string>) returns (dataLines: seq<string>)
    ensures dataLines == DataLines(lines)
  {
    dataLines := [];
    var i := 0;
    while i < |lines|
      invariant 0 <= i <= |lines|
      invariant dataLines == DataLines(lines[..i])
    {
      DataLinesStep(lines, i);
      dataLines := CollectLine(dataLines, lines[i]);
      i := i + 1;
    }
    assert lines[..i] == lines;
  }

  /** The collected lines after one more line of the report. */
  lemma DataLinesStep(lines: seq<string>, i: nat)
    requires i < |lines|
    ensures DataLines(lines[..i + 1]) ==
      if IsDivider(lines[i]) then [] else DataLines(lines[..i]) + (if IsCandidate(lines[i]) then [lines[i]] else [])
  {
    assert lines[..i + 1] == lines[..i] + [lines[i]];
    DataLinesSnoc(lines[..i], lines[i]);
  }

  /** One pass of the first loop over line `ln`. */
  method CollectLine(dataLines: seq<string>, ln: string) returns (next: seq<string>)
    ensures next == if IsDivider(ln) then [] else dataLines + (if IsCandidate(ln) then [ln] else [])
  {
    next := dataLines;
    if StartsWith(ln, "====") {
      next := [];
    } else if Strip(ln) == [] {
    } else if StartsWith(ln, "MS ") || StartsWith(ln, "Name/IP") {
    } else if IsSourceLine(ln) {
      next := dataLines + [ln];
    }
    if !IsDivider(ln) && !IsCandidate(ln) {
      assert next + [] == next;
    }
  }

  /** The second loop of `parse_sources_v`. */
  method ParseDataLines(dataLines: seq<string>) returns (rows: seq<SourceRow>)
    ensures rows == ParseRows(dataLines)
  {
    rows := [];
    var j := 0;
    while j < |dataLines|
      invariant 0 <= j <= |dataLines|
      invariant rows == ParseRows(dataLines[..j])
    {
      assert dataLines[..j + 1] == dataLines[..j] + [dataLines[j]];
      FilterMapConcat(ParseRow, dataLines[..j], [dataLines[j]]);
      FilterMapOne(ParseRow, dataLines[j]);
      var r := ParseRow(dataLines[j]);
      if r.Some? {
        rows := rows + [r.value];
      }
      j := j + 1;
    }
    assert dataLines[..j] == dataLines;
  }
}
