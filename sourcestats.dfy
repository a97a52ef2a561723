/** `parse_sourcestats_v` and `merge_sourcestats`: the regression
    statistics printed by `chronyc sourcestats -v`, keyed by normalised
    source name, and their join onto the rows of the sources table. */
module SourcestatsParser {
  import opened Wrappers
  import opened Text
  import opened Numbers
  import opened Records
  import opened SourcesParser
  import opened Seqs

  // ---------- table section ----------

  predicate HasDivider(ls: seq<string>) {
    ls != [] && (IsDivider(ls[0]) || HasDivider(ls[1..]))
  }

  /** The index just past the first divider of `ls`, `|ls|` when there is
      none. */
  function FirstDivEnd(ls: seq<string>): (e: nat)
    ensures e <= |ls|
    ensures forall j :: 0 <= j < e - 1 ==> !IsDivider(ls[j])
    ensures HasDivider(ls) ==> 0 < e && IsDivider(ls[e - 1])
    ensures !HasDivider(ls) ==> e == |ls|
  {
    if ls == [] then 0 else if IsDivider(ls[0]) then 1 else 1 + FirstDivEnd(ls[1..])
  }

  lemma {:induction false} FirstDivEndSnoc(ls: seq<string>, l: string)
    ensures HasDivider(ls + [l]) == (HasDivider(ls) || IsDivider(l))
    ensures FirstDivEnd(ls + [l]) == if HasDivider(ls) then FirstDivEnd(ls) else |ls| + 1
  {
    if ls != [] {
      assert (ls + [l])[1..] == ls[1..] + [l];
      FirstDivEndSnoc(ls[1..], l);
    } else {
      assert [l][1..] == [];
    }
  }

  /** Lines that the loop parses once it is inside the table. */
  predicate IsStatsCandidate(ln: string) {
    !IsDivider(ln) && Strip(ln) != [] && !StartsWith(ln, "Name/IP")
  }

  function StatsCandidates(ls: seq<string>): seq<string> {
    Filter(IsStatsCandidate, ls)
  }

  /** The candidate lines after the first divider. */
  function TableLines(ls: seq<string>): seq<string> {
    StatsCandidates(ls[FirstDivEnd(ls)..])
  }

  lemma TableLinesSnoc(ls: seq<string>, l: string)
    ensures TableLines(ls + [l]) ==
      TableLines(ls) + (if HasDivider(ls) && IsStatsCandidate(l) then [l] else [])
  {
    var s := ls + [l];
    FirstDivEndSnoc(ls, l);
    if HasDivider(ls) {
      var e := FirstDivEnd(ls);
      assert s[e..] == ls[e..] + [l];
      FilterConcat(IsStatsCandidate, ls[e..], [l]);
      FilterOne(IsStatsCandidate, l);
    } else {
      assert s[|ls| + 1..] == [] && ls[|ls|..] == [];
      assert Filter(IsStatsCandidate, []) == [];
      assert TableLines(ls) == [] && TableLines(s) == [];
    }
  }

  /** Text before the first divider never reaches the table. */
  lemma {:induction false} PreambleIgnored(pre: seq<string>, ls: seq<string>)
    requires !HasDivider(pre)
    ensures TableLines(pre + ls) == TableLines(ls)
  {
    if pre != [] {
      assert (pre + ls)[1..] == pre[1..] + ls;
      PreambleIgnored(pre[1..], ls);
      assert (pre + ls)[FirstDivEnd(pre + ls)..] == (pre[1..] + ls)[FirstDivEnd(pre[1..] + ls)..];
    } else {
      assert pre + ls == ls;
    }
  }

  // ---------- one row ----------

  /** `^([+\-]?\d+(?:\.\d+)?)(ns|us|ms|s)$` on a whole token, in seconds. */
  function TokenQuantity(tok: string): (v: Option<real>)
    ensures v.Some? <==> MatchQuantity(tok, 0).Some? && MatchQuantity(tok, 0).value.end == |tok|
    ensures v.Some? ==> var q := MatchQuantity(tok, 0).value;
      0 < q.numEnd < q.end == |tok| && IsUnit(tok[q.numEnd..q.end]) && PyFloat(tok[0..q.numEnd]).Some?
      && v.value == ToSeconds(PyFloat(tok[0..q.numEnd]).value, tok[q.numEnd..q.end])
  {
    match MatchQuantity(tok, 0)
    case Some(q) =>
      if q.end == |tok| then
        QuantityIsSeconds(tok, 0);
        Some(q.value)
      else None
    case None => None
  }

  /** The statistics row of one line, `None` when it has fewer than eight
      columns. */
  function ParseStatsRow(ln: string): (r: Option<StatsRow>)
    ensures r.None? <==> |Words(ln)| < 8
    ensures r.Some? ==>
      var p := Words(ln);
      && r.value.name == p[0] && r.value.key == NormalizeName(p[0]) && r.value.raw == ln
      && r.value.np == PyInt(p[1]) && r.value.nr == PyInt(p[2])
      && r.value.span == SpanSeconds(p[3])
      && r.value.freq == PyFloat(p[4]) && r.value.fskew == PyFloat(p[5])
      && r.value.offset == TokenQuantity(p[6]) && r.value.stddev == TokenQuantity(p[7])
  {
    var p := Words(ln);
    if |p| < 8 then None
    else
      Some(StatsRow(
        p[0], NormalizeName(p[0]),
        PyInt(p[1]), PyInt(p[2]),
        SpanSeconds(p[3]),
        PyFloat(p[4]), PyFloat(p[5]),
        TokenQuantity(p[6]), TokenQuantity(p[7]),
        ln))
  }

  function StatsRows(ls: seq<string>): seq<StatsRow> {
    FilterMap(ParseStatsRow, ls)
  }

  /** The dictionary filled row by row: a later row with the same key
      replaces the earlier one. */
  function StatsMap(rows: seq<StatsRow>): map<string, StatsRow> {
    if rows == [] then map[]
    else StatsMap(rows[..|rows| - 1])[rows[|rows| - 1].key := rows[|rows| - 1]]
  }

  /** The keys of the dictionary are exactly the keys of the rows, and each
      key maps to one of its rows. */
  lemma {:induction false} StatsMapContents(rows: seq<StatsRow>)
    ensures StatsMap(rows).Keys == set i | 0 <= i < |rows| :: rows[i].key
    ensures forall k :: k in StatsMap(rows) ==> StatsMap(rows)[k] in rows && StatsMap(rows)[k].key == k
  {
    if rows != [] {
      var p := rows[..|rows| - 1];
      var r := rows[|rows| - 1];
      StatsMapContents(p);
      assert forall x :: x in p ==> x in rows;
      assert (set i | 0 <= i < |rows| :: rows[i].key) ==
             (set i | 0 <= i < |p| :: p[i].key) + {r.key};
    }
  }

  /** A repeated key keeps its last row. */
  lemma {:induction false} StatsMapLastWins(rows: seq<StatsRow>, i: nat)
    requires i < |rows|
    requires forall j :: i < j < |rows| ==> rows[j].key != rows[i].key
    ensures rows[i].key in StatsMap(rows) && StatsMap(rows)[rows[i].key] == rows[i]
    decreases |rows|
  {
    if i < |rows| - 1 {
      StatsMapLastWins(rows[..|rows| - 1], i);
    }
  }

  /** The statistics of a `sourcestats -v` report: empty for an empty report,
      otherwise the rows after the first divider, by key. */
  function ParseSourcestats(out: string): map<string, StatsRow> {
    if out == [] then map[] else StatsMap(StatsRows(TableLines(Lines(out))))
  }

  /** `parse_sourcestats_v`: `inTable` turns on at the first divider and
      stays on; each parsed row is stored under its key. */
  method ParseSourcestatsV(out: string) returns (data: map<string, StatsRow>)
    ensures data == ParseSourcestats(out)
  {
    if out == [] {
      return map[];
    }
    var lines := Lines(out);
    data := map[];
    var inTable := false;
    var i := 0;
    while i < |lines|
      invariant 0 <= i <= |lines|
      invariant inTable == HasDivider(lines[..i])
      invariant data == StatsMap(StatsRows(TableLines(lines[..i])))
    {
      data, inTable := StatsStep(lines[..i], data, inTable, lines[i]);
      TableSnoc(lines, i);
      i := i + 1;
    }
    assert lines[..i] == lines;
  }

  /** The specification of a prefix one line longer. */
  lemma TableSnoc(lines: seq<string>, i: nat)
    requires i < |lines|
    ensures HasDivider(lines[..i + 1]) == HasDivider(lines[..i] + [lines[i]])
    ensures StatsMap(StatsRows(TableLines(lines[..i + 1]))) == StatsMap(StatsRows(TableLines(lines[..i] + [lines[i]])))
  {
    assert lines[..i + 1] == lines[..i] + [lines[i]];
  }

  /** One pass of the loop keeps the state equal to the specification of
      the lines seen so far. */
  method StatsStep(ghost seen: seq<string>, data: map<string, StatsRow>, inTable: bool, ln: string)
    returns (next: map<string, StatsRow>, nowInTable: bool)
    requires inTable == HasDivider(seen)
    requires data == StatsMap(StatsRows(TableLines(seen)))
    ensures nowInTable == HasDivider(seen + [ln])
    ensures next == StatsMap(StatsRows(TableLines(seen + [ln])))
  {
    TableStep(seen, ln);
    next, nowInTable := ScanStatsLine(data, inTable, ln);
  }

  /** One pass of the loop of `parse_sourcestats_v` over line `ln`. */
  method ScanStatsLine(data: map<string, StatsRow>, inTable: bool, ln: string)
    returns (next: map<string, StatsRow>, nowInTable: bool)
    ensures nowInTable == (inTable || IsDivider(ln))
    ensures var r := ParseStatsRow(ln);
      next == if inTable && IsStatsCandidate(ln) && r.Some? then data[r.value.key := r.value] else data
  {
    next, nowInTable := data, inTable;
    if StartsWith(ln, "====") {
      nowInTable := true;
    } else if !inTable {
    } else if Strip(ln) == [] {
    } else if StartsWith(ln, "Name/IP") {
    } else {
      var r := ParseStatsRow(ln);
      if r.Some? {
        next := data[r.value.key := r.value];
      }
    }
  }

  lemma StatsRowsSnoc(ls: seq<string>, l: string)
    ensures StatsRows(ls + [l]) ==
      StatsRows(ls) + (match ParseStatsRow(l) case Some(r) => [r] case None => [])
  {
    FilterMapConcat(ParseStatsRow, ls, [l]);
    FilterMapOne(ParseStatsRow, l);
  }

  lemma StatsMapSnoc(rows: seq<StatsRow>, r: StatsRow)
    ensures StatsMap(rows + [r]) == StatsMap(rows)[r.key := r]
  {
    assert (rows + [r])[..|rows|] == rows;
  }

  /** One step of the loop expressed on the specification. */
  lemma TableStep(ls: seq<string>, l: string)
    ensures HasDivider(ls + [l]) == (HasDivider(ls) || IsDivider(l))
    ensures var rows := StatsRows(TableLines(ls)); var r := ParseStatsRow(l);
      StatsMap(StatsRows(TableLines(ls + [l]))) ==
        if HasDivider(ls) && IsStatsCandidate(l) && r.Some? then StatsMap(rows)[r.value.key := r.value]
        else StatsMap(rows)
  {
    FirstDivEndSnoc(ls, l);
    TableLinesSnoc(ls, l);
    var t := TableLines(ls);
    if HasDivider(ls) && IsStatsCandidate(l) {
      StatsRowsSnoc(t, l);
      match ParseStatsRow(l)
      case Some(r) => StatsMapSnoc(StatsRows(t), r);
      case None => assert StatsRows(t) + [] == StatsRows(t);
    } else {
      assert t + [] == t;
    }
  }

  // ---------- merge ----------

  /** The row with its seven statistics fields reset to absent. */
  function ClearStats(s: SourceRow): SourceRow {
    s.(ssNp := None, ssNr := None, ssSpan := None, ssFreq := None,
       ssFskew := None, ssOffset := None, ssStddev := None)
  }

  /** The statistics fields of `s` are those of `st`. */
  predicate CarriesStats(s: SourceRow, st: StatsRow) {
    && s.ssNp == st.np && s.ssNr == st.nr && s.ssSpan == st.span
    && s.ssFreq == st.freq && s.ssFskew == st.fskew
    && s.ssOffset == st.offset && s.ssStddev == st.stddev
  }

  /** One source after the merge: it takes the statistics of the row with
      its key when there is one, and nothing else about it changes. */
  function Merged(s: SourceRow, ssMap: map<string, StatsRow>): (r: SourceRow)
    ensures ClearStats(r) == ClearStats(s)
    ensures s.key in ssMap ==> CarriesStats(r, ssMap[s.key])
    ensures s.key !in ssMap ==> r == s
  {
    if s.key !in ssMap then s
    else
      var st := ssMap[s.key];
      s.(ssNp := st.np, ssNr := st.nr, ssSpan := st.span, ssFreq := st.freq,
         ssFskew := st.fskew, ssOffset := st.offset, ssStddev := st.stddev)
  }

  /** Merging the same statistics twice is the same as merging once. */
  lemma MergeIdempotent(s: SourceRow, ssMap: map<string, StatsRow>)
    ensures Merged(Merged(s, ssMap), ssMap) == Merged(s, ssMap)
  {
  }

  /** `merge_sourcestats`: every source whose key has statistics receives
      them in place. */
  method MergeSourcestats(sources: array<SourceRow>, ssMap: map<string, StatsRow>)
    modifies sources
    ensures forall i :: 0 <= i < sources.Length ==> sources[i] == Merged(old(sources[i]), ssMap)
  {
    if sources.Length == 0 {
      return;
    }
    var i := 0;
    while i < sources.Length
      invariant 0 <= i <= sources.Length
      invariant forall j :: 0 <= j < i ==> sources[j] == Merged(old(sources[j]), ssMap)
      invariant forall j :: i <= j < sources.Length ==> sources[j] == old(sources[j])
    {
      var s := sources[i];
      if s.key in ssMap {
        var st := ssMap[s.key];
        sources[i] := s.(ssNp := st.np, ssNr := st.nr, ssSpan := st.span, ssFreq := st.freq,
                         ssFskew := st.fskew, ssOffset := st.offset, ssStddev := st.stddev);
      }
      i := i + 1;
    }
  }
}
