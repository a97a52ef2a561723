/** `parse_tracking`: the four scalars of a `chronyc tracking` report,
    found by searching the whole text for labelled values. */
module TrackingParser {
  import opened Wrappers
  import opened Text
  import opened Numbers
  import opened Records

  /** The characters of the capture `[-\d.]`. */
  predicate IsNumChar(c: char) {
    c == '-' || c == '.' || IsDigit(c)
  }

  /** Number of `[-\d.]` characters in `s` from index `j`. */
  function NumRun(s: string, j: nat): (n: nat)
    requires j <= |s|
    ensures j + n <= |s|
    ensures j + n < |s| ==> !IsNumChar(s[j + n])
    decreases |s| - j
  {
    if j < |s| && IsNumChar(s[j]) then 1 + NumRun(s, j + 1) else 0
  }

  /** The capture of a match: `s[start..end]`, the text of `([-\d.]+)`. */
  datatype Capture = Capture(start: nat, end: nat, fast: bool)

  /** `tag\s+:\s+([-\d.]+)` matched at index `i`. The whitespace runs and
      the capture are maximal; none of them can give characters back to what
      follows, so this is the only way the pattern can match at `i`. */
  function MatchLabeled(s: string, i: nat, tag: string): (m: Option<Capture>)
    requires i <= |s|
    ensures m.Some? ==> i < m.value.start < m.value.end <= |s|
  {
    if !OccursAt(s, tag, i) then None else MatchColon(s, i + |tag|)
  }

  /** The `\s+:\s+([-\d.]+)` after the label, matched at index `a`. */
  function MatchColon(s: string, a: nat): (m: Option<Capture>)
    requires a <= |s|
    ensures m.Some? ==> a < m.value.start < m.value.end <= |s|
  {
    var w1 := SpaceRun(s, a);
    if w1 == 0 || a + w1 >= |s| || s[a + w1] != ':' then None else MatchValue(s, a + w1 + 1)
  }

  /** The `\s+([-\d.]+)` after the colon, matched at index `b`. */
  function MatchValue(s: string, b: nat): (m: Option<Capture>)
    requires b <= |s|
    ensures m.Some? ==> b < m.value.start < m.value.end <= |s|
  {
    var w2 := SpaceRun(s, b);
    var n := NumRun(s, b + w2);
    if w2 == 0 || n == 0 then None else Some(Capture(b + w2, b + w2 + n, true))
  }

  /** `System time\s+:\s+([-\d.]+)\s+seconds\s+(slow|fast)` matched at index
      `i`; `fast` records which direction word followed. */
  function MatchSystemTime(s: string, i: nat): (m: Option<Capture>)
    requires i <= |s|
    ensures m.Some? ==> i < m.value.start < m.value.end <= |s|
  {
    match MatchLabeled(s, i, "System time")
    case None => None
    case Some(c) =>
      match MatchDirection(s, c.end)
      case None => None
      case Some(fast) => Some(c.(fast := fast))
  }

  /** The `\s+seconds\s+(slow|fast)` tail matched at index `j`: which
      direction word it ends in. */
  function MatchDirection(s: string, j: nat): Option<bool>
    requires j <= |s|
  {
    var w3 := SpaceRun(s, j);
    if w3 == 0 || !OccursAt(s, "seconds", j + w3) then None else MatchWord(s, j + w3 + 7)
  }

  /** The `\s+(slow|fast)` after `seconds`, matched at index `f`. */
  function MatchWord(s: string, f: nat): Option<bool>
    requires f <= |s|
  {
    var w4 := SpaceRun(s, f);
    if w4 == 0 then None else DirectionWord(s, f + w4)
  }

  /** `(slow|fast)` at index `e`; the alternatives are tried in this order. */
  function DirectionWord(s: string, e: nat): Option<bool> {
    if OccursAt(s, "slow", e) then Some(false)
    else if OccursAt(s, "fast", e) then Some(true)
    else None
  }

  /** `re.search` for a labelled value: the match at the leftmost position
      `i` or later. */
  function SearchLabeled(s: string, tag: string, i: nat): (m: Option<Capture>)
    requires i <= |s|
    ensures m.Some? ==> m.value.end <= |s|
    ensures m.None? ==> forall k :: i <= k <= |s| ==> MatchLabeled(s, k, tag).None?
    decreases |s| - i
  {
    var m := MatchLabeled(s, i, tag);
    if m.Some? || i == |s| then m else SearchLabeled(s, tag, i + 1)
  }

  /** `re.search` for the system-time line. */
  function SearchSystemTime(s: string, i: nat): (m: Option<Capture>)
    requires i <= |s|
    ensures m.Some? ==> m.value.start < m.value.end <= |s|
    ensures m.None? ==> forall k :: i <= k <= |s| ==> MatchSystemTime(s, k).None?
    decreases |s| - i
  {
    var m := MatchSystemTime(s, i);
    if m.Some? || i == |s| then m else SearchSystemTime(s, i + 1)
  }

  /** `float()` of a captured number, when the capture is well formed. */
  predicate GoodCapture(s: string, m: Option<Capture>) {
    m.Some? ==> m.value.start <= m.value.end <= |s| && PyFloat(s[m.value.start..m.value.end]).Some?
  }

  /** Every capture the parser converts is a well-formed number. The capture
      `[-\d.]+` also admits text such as `1.2.3` or `-`, on which `float()`
      raises; callers are taken to supply reports without such text. */
  predicate WellFormed(out: string) {
    && GoodCapture(out, SearchSystemTime(out, 0))
    && GoodCapture(out, SearchLabeled(out, "RMS offset", 0))
    && GoodCapture(out, SearchLabeled(out, "Frequency", 0))
    && GoodCapture(out, SearchLabeled(out, "Skew", 0))
  }

  /** The value of a labelled field: `float()` of its capture, 0.0 when its
      label is not found. */
  function FieldOr0(out: string, m: Option<Capture>): (v: real)
    requires GoodCapture(out, m)
    ensures m.None? ==> v == 0.0
    ensures m.Some? ==> v == PyFloat(out[m.value.start..m.value.end]).value
  {
    match m
    case None => 0.0
    case Some(c) => PyFloat(out[c.start..c.end]).value
  }

  /** `parse_tracking`. `None` only for an empty report. The offset is the
      system-time value, negated when the report says `slow` so that a
      positive offset means the local clock is ahead; any field whose label
      is missing is 0.0, so all four are always present. */
  function ParseTracking(out: string): (r: Option<Tracking>)
    requires WellFormed(out)
    ensures r.None? <==> out == []
    ensures r.Some? && SearchSystemTime(out, 0).None? ==> r.value.offset == 0.0
    ensures r.Some? && SearchLabeled(out, "RMS offset", 0).None? ==> r.value.rms == 0.0
    ensures r.Some? && SearchLabeled(out, "Frequency", 0).None? ==> r.value.freq == 0.0
    ensures r.Some? && SearchLabeled(out, "Skew", 0).None? ==> r.value.skew == 0.0
    ensures var m := SearchSystemTime(out, 0);
      r.Some? && m.Some? && m.value.fast ==> r.value.offset == PyFloat(out[m.value.start..m.value.end]).value
    ensures var m := SearchSystemTime(out, 0);
      r.Some? && m.Some? && !m.value.fast ==> r.value.offset == -PyFloat(out[m.value.start..m.value.end]).value
    ensures var m := SearchLabeled(out, "RMS offset", 0);
      r.Some? && m.Some? ==> r.value.rms == PyFloat(out[m.value.start..m.value.end]).value
    ensures var m := SearchLabeled(out, "Frequency", 0);
      r.Some? && m.Some? ==> r.value.freq == PyFloat(out[m.value.start..m.value.end]).value
    ensures var m := SearchLabeled(out, "Skew", 0);
      r.Some? && m.Some? ==> r.value.skew == PyFloat(out[m.value.start..m.value.end]).value
  {
    if out == [] then None
    else
      var sys := SearchSystemTime(out, 0);
      var offset := match sys
        case None => 0.0
        case Some(c) =>
          var v := PyFloat(out[c.start..c.end]).value;
          if c.fast then v else -v;
      Some(Tracking(
        offset,
        FieldOr0(out, SearchLabeled(out, "RMS offset", 0)),
        FieldOr0(out, SearchLabeled(out, "Frequency", 0)),
        FieldOr0(out, SearchLabeled(out, "Skew", 0))))
  }

  /** A non-empty run of whitespace, what `\s+` consumes. */
  predicate IsSpaces(w: string) {
    w != [] && IsBlank(w)
  }

  /** A non-empty run of `[-\d.]` characters. */
  predicate IsNumText(v: string) {
    v != [] && forall k :: 0 <= k < |v| ==> IsNumChar(v[k])
  }

  /** The direction word of the system-time line. */
  function Direction(fast: bool): string {
    if fast then "fast" else "slow"
  }

  /** A system-time line with the whitespace runs `w1`..`w4` and the value
      text `v`, followed by the rest of the report. */
  function SystemTimeText(w1: string, w2: string, v: string, w3: string, w4: string, fast: bool, rest: string): string {
    "System time" + (w1 + (":" + (w2 + (v + (w3 + ("seconds" + (w4 + (Direction(fast) + rest))))))))
  }

  /** The capture of the value `v` in such a line after `pre`. */
  function ValueCapture(pre: string, w1: string, w2: string, v: string, fast: bool): (c: Capture)
    ensures c.end == c.start + |v| && c.fast == fast
  {
    var st := |pre| + 11 + |w1| + 1 + |w2|;
    Capture(st, st + |v|, fast)
  }

  /** A report whose first system-time line is `SystemTimeText(...)`: the
      text `pre` before it ends a line and holds no "System time". */
  predicate FirstSystemTime(pre: string, w1: string, w2: string, v: string, w3: string, w4: string) {
    && (pre == [] || pre[|pre| - 1] == '\n')
    && !Contains(pre, "System time")
    && IsSpaces(w1) && IsSpaces(w2) && IsSpaces(w3) && IsSpaces(w4)
    && IsNumText(v)
  }

  /** The offset is `+v` after `fast` and `-v` after `slow`, whatever the
      whitespace around the colon and the value, wherever the line sits
      and whatever follows it. */
  lemma OffsetFollowsDirection(pre: string, w1: string, w2: string, v: string, w3: string, w4: string,
                               fast: bool, rest: string)
    requires FirstSystemTime(pre, w1, w2, v, w3, w4)
    requires WellFormed(pre + SystemTimeText(w1, w2, v, w3, w4, fast, rest))
    ensures PyFloat(v).Some?
    ensures var out := pre + SystemTimeText(w1, w2, v, w3, w4, fast, rest);
      ParseTracking(out).Some? && ParseTracking(out).value.offset == (if fast then PyFloat(v).value else -PyFloat(v).value)
  {
    var out := pre + SystemTimeText(w1, w2, v, w3, w4, fast, rest);
    var c := ValueCapture(pre, w1, w2, v, fast);
    SystemTimeFound(pre, w1, w2, v, w3, w4, fast, rest);
    OffsetOfCapture(out, c, v);
  }

  /** `ParseTracking` reads its offset from the capture the search returns. */
  lemma OffsetOfCapture(out: string, c: Capture, v: string)
    requires WellFormed(out) && SearchSystemTime(out, 0) == Some(c)
    requires c.end <= |out| && out[c.start..c.end] == v
    ensures PyFloat(v).Some?
    ensures ParseTracking(out).Some? && ParseTracking(out).value.offset == (if c.fast then PyFloat(v).value else -PyFloat(v).value)
  {
  }

  /** The search for the system-time line stops at the first such line and
      captures exactly `v`, with its direction. */
  lemma SystemTimeFound(pre: string, w1: string, w2: string, v: string, w3: string, w4: string,
                        fast: bool, rest: string)
    requires FirstSystemTime(pre, w1, w2, v, w3, w4)
    ensures var out := pre + SystemTimeText(w1, w2, v, w3, w4, fast, rest);
      var c := ValueCapture(pre, w1, w2, v, fast);
      c.end <= |out| && out[c.start..c.end] == v && SearchSystemTime(out, 0) == Some(c)
  {
    var out := pre + SystemTimeText(w1, w2, v, w3, w4, fast, rest);
    var c := ValueCapture(pre, w1, w2, v, fast);
    SystemTimeAt(out, pre, w1, w2, v, w3, w4, fast, rest, c);
    assert out[..|pre|] == pre;
    SearchFinds(out, pre, c);
  }

  /** The search stops at the first line that matches when no earlier line
      mentions the label. */
  lemma SearchFinds(out: string, pre: string, c: Capture)
    requires |pre| <= |out| && out[..|pre|] == pre
    requires pre == [] || pre[|pre| - 1] == '\n'
    requires !Contains(pre, "System time")
    requires MatchSystemTime(out, |pre|) == Some(c)
    ensures SearchSystemTime(out, 0) == Some(c)
  {
    NoneBeforeLine(out, pre, |pre|);
    SearchSkips(out, 0, |pre|);
  }

  /** The matcher reads the system-time line where it starts, after `pre`. */
  lemma SystemTimeAt(out: string, pre: string, w1: string, w2: string, v: string, w3: string, w4: string,
                     fast: bool, rest: string, c: Capture)
    requires IsSpaces(w1) && IsSpaces(w2) && IsSpaces(w3) && IsSpaces(w4) && IsNumText(v)
    requires out == pre + SystemTimeText(w1, w2, v, w3, w4, fast, rest)
    requires c == ValueCapture(pre, w1, w2, v, fast)
    ensures c.end <= |out| && out[c.start..c.end] == v && MatchSystemTime(out, |pre|) == Some(c)
  {
    var p := |pre|;
    var st := c.start;
    var en := c.end;
    var a := p + 11;
    var c' := a + |w1|;
    var b := c' + 1;
    var d := en + |w3|;
    var f := d + 7;
    var g := f + |w4|;
    LabelPieces(pre, w1, w2, v, w3, w4, fast, rest, a, c', b, st);
    DirectionPieces(pre, w1, w2, v, w3, w4, fast, rest, en, d, f, g);
    LabelAt(out, p, a, c', b, st, en, w1, w2, v, w3);
    DirectionAt(out, en, d, f, g, w3, w4, fast);
    SystemTimeFrom(out, p, a, c, fast);
  }

  /** Where the pieces of the label part sit in a report. */
  lemma LabelPieces(pre: string, w1: string, w2: string, v: string, w3: string, w4: string, fast: bool, rest: string,
                    a: nat, c: nat, b: nat, st: nat)
    requires a == |pre| + 11 && c == a + |w1| && b == c + 1 && st == b + |w2|
    ensures var out := pre + SystemTimeText(w1, w2, v, w3, w4, fast, rest);
      && Piece(out, "System time", |pre|) && Piece(out, w1, a) && Piece(out, ":", c)
      && Piece(out, w2, b) && Piece(out, v, st)
  {
    var t6 := w3 + ("seconds" + (w4 + (Direction(fast) + rest)));
    var t2 := w1 + (":" + (w2 + (v + t6)));
    PiecePrefix("System time", t2);
    PieceShift(pre, "System time" + t2, "System time", 0, |pre|);
    PiecePrefix(w1, ":" + (w2 + (v + t6)));
    LabelShift(pre, t2, w1, 0, a);
    InnerColon(w1, w2, v, t6);
    LabelShift(pre, t2, ":", |w1|, c);
    InnerSpace(w1, w2, v, t6);
    LabelShift(pre, t2, w2, |w1| + 1, b);
    InnerValue(w1, w2, v, t6);
    LabelShift(pre, t2, v, |w1| + 1 + |w2|, st);
  }

  /** A piece after the label sits in the report `|pre| + 11` further on. */
  lemma LabelShift(pre: string, t2: string, n: string, j: nat, k: nat)
    requires Piece(t2, n, j) && k == |pre| + 11 + j
    ensures Piece(pre + ("System time" + t2), n, k)
  {
    PieceShift("System time", t2, n, j, 11 + j);
    PieceShift(pre, "System time" + t2, n, 11 + j, k);
  }

  lemma InnerColon(w1: string, w2: string, v: string, t6: string)
    ensures Piece(w1 + (":" + (w2 + (v + t6))), ":", |w1|)
  {
    PiecePrefix(":", w2 + (v + t6));
    PieceShift(w1, ":" + (w2 + (v + t6)), ":", 0, |w1|);
  }

  lemma InnerSpace(w1: string, w2: string, v: string, t6: string)
    ensures Piece(w1 + (":" + (w2 + (v + t6))), w2, |w1| + 1)
  {
    PiecePrefix(w2, v + t6);
    PieceShift(":", w2 + (v + t6), w2, 0, 1);
    PieceShift(w1, ":" + (w2 + (v + t6)), w2, 1, |w1| + 1);
  }

  lemma InnerValue(w1: string, w2: string, v: string, t6: string)
    ensures Piece(w1 + (":" + (w2 + (v + t6))), v, |w1| + 1 + |w2|)
  {
    PiecePrefix(v, t6);
    PieceShift(w2, v + t6, v, 0, |w2|);
    PieceShift(":", w2 + (v + t6), v, |w2|, 1 + |w2|);
    PieceShift(w1, ":" + (w2 + (v + t6)), v, 1 + |w2|, |w1| + 1 + |w2|);
  }

  /** Where the pieces of the direction part sit in a report. */
  lemma DirectionPieces(pre: string, w1: string, w2: string, v: string, w3: string, w4: string, fast: bool, rest: string,
                        en: nat, d: nat, f: nat, g: nat)
    requires en == |pre| + 11 + |w1| + 1 + |w2| + |v| && d == en + |w3| && f == d + 7 && g == f + |w4|
    ensures var out := pre + SystemTimeText(w1, w2, v, w3, w4, fast, rest);
      && Piece(out, w3, en) && Piece(out, "seconds", d) && Piece(out, w4, f) && Piece(out, Direction(fast), g)
  {
    var t9 := Direction(fast) + rest;
    var t8 := w4 + t9;
    var t7 := "seconds" + t8;
    var t6 := w3 + t7;
    PiecePrefix(w3, t7);
    TailShift(pre, w1, w2, v, t6, w3, 0, en);
    PiecePrefix("seconds", t8);
    PieceShift(w3, t7, "seconds", 0, |w3|);
    TailShift(pre, w1, w2, v, t6, "seconds", |w3|, d);
    PiecePrefix(w4, t9);
    PieceShift("seconds", t8, w4, 0, 7);
    PieceShift(w3, t7, w4, 7, |w3| + 7);
    TailShift(pre, w1, w2, v, t6, w4, |w3| + 7, f);
    PiecePrefix(Direction(fast), rest);
    PieceShift(w4, t9, Direction(fast), 0, |w4|);
    PieceShift("seconds", t8, Direction(fast), |w4|, 7 + |w4|);
    PieceShift(w3, t7, Direction(fast), 7 + |w4|, |w3| + 7 + |w4|);
    TailShift(pre, w1, w2, v, t6, Direction(fast), |w3| + 7 + |w4|, g);
  }

  /** A piece of the direction part sits in the report after the label
      part. */
  lemma TailShift(pre: string, w1: string, w2: string, v: string, t6: string, n: string, j: nat, k: nat)
    requires Piece(t6, n, j) && k == |pre| + 11 + |w1| + 1 + |w2| + |v| + j
    ensures Piece(pre + ("System time" + (w1 + (":" + (w2 + (v + t6))))), n, k)
  {
    var t4 := w2 + (v + t6);
    var t2 := w1 + (":" + t4);
    PieceShift(v, t6, n, j, |v| + j);
    PieceShift(w2, v + t6, n, |v| + j, |w2| + |v| + j);
    PieceShift(":", t4, n, |w2| + |v| + j, 1 + |w2| + |v| + j);
    PieceShift(w1, ":" + t4, n, 1 + |w2| + |v| + j, |w1| + 1 + |w2| + |v| + j);
    PieceShift("System time", t2, n, |w1| + 1 + |w2| + |v| + j, 11 + |w1| + 1 + |w2| + |v| + j);
    PieceShift(pre, "System time" + t2, n, 11 + |w1| + 1 + |w2| + |v| + j, k);
  }

  /** `System time\s+:\s+([-\d.]+)` read from where its pieces sit: the
      label at `p`, the runs `w1` and `w2` around the colon at `c`, the
      value `v` from `st` to `en`, and then the whitespace `w3`. */
  lemma LabelAt(out: string, p: nat, a: nat, c: nat, b: nat, st: nat, en: nat,
                w1: string, w2: string, v: string, w3: string)
    requires IsSpaces(w1) && IsSpaces(w2) && IsNumText(v) && IsSpaces(w3)
    requires a == p + 11 && c == a + |w1| && b == c + 1 && st == b + |w2| && en == st + |v|
    requires Piece(out, "System time", p) && Piece(out, w1, a) && Piece(out, ":", c)
    requires Piece(out, w2, b) && Piece(out, v, st) && Piece(out, w3, en)
    ensures OccursAt(out, "System time", p) && en <= |out| && out[st..en] == v
    ensures MatchColon(out, a) == Some(Capture(st, en, true))
  {
    HeadAt(out, ":", c);
    SpaceRunAt(out, a, w1, c);
    HeadAt(out, v, st);
    NumNotSpace(v[0]);
    SpaceRunAt(out, b, w2, st);
    HeadAt(out, w3, en);
    SpaceNotNum(w3[0]);
    NumRunAt(out, st, v, en);
    PieceOccurs(out, "System time", p);
    PieceOccurs(out, v, st);
    ValueAt(out, b, st, en, w2, v);
    ColonAt(out, a, c, b, w1, st, en);
  }

  lemma ValueAt(s: string, b: nat, st: nat, en: nat, w2: string, v: string)
    requires b <= |s| && w2 != [] && v != [] && st == b + |w2| && en == st + |v|
    requires SpaceRun(s, b) == |w2| && NumRun(s, st) == |v|
    ensures MatchValue(s, b) == Some(Capture(st, en, true))
  {
  }

  lemma ColonAt(s: string, a: nat, c: nat, b: nat, w1: string, st: nat, en: nat)
    requires a <= |s| && w1 != [] && c == a + |w1| && c < |s| && s[c] == ':' && b == c + 1
    requires SpaceRun(s, a) == |w1| && MatchValue(s, b) == Some(Capture(st, en, true))
    ensures MatchColon(s, a) == Some(Capture(st, en, true))
  {
  }

  /** `\s+seconds\s+(slow|fast)` read from where its pieces sit. */
  lemma DirectionAt(out: string, en: nat, d: nat, f: nat, g: nat, w3: string, w4: string, fast: bool)
    requires IsSpaces(w3) && IsSpaces(w4) && d == en + |w3| && f == d + 7 && g == f + |w4|
    requires Piece(out, w3, en) && Piece(out, "seconds", d) && Piece(out, w4, f)
    requires Piece(out, Direction(fast), g)
    ensures MatchDirection(out, en) == Some(fast)
  {
    HeadAt(out, "seconds", d);
    SpaceRunAt(out, en, w3, d);
    HeadAt(out, Direction(fast), g);
    SpaceRunAt(out, f, w4, g);
    PieceOccurs(out, "seconds", d);
    PieceOccurs(out, Direction(fast), g);
    WordAt(out, g, fast);
    MatchWordAt(out, f, g, w4, fast);
    MatchDirectionAt(out, en, d, f, w3, fast);
  }

  lemma WordAt(s: string, g: nat, fast: bool)
    requires OccursAt(s, Direction(fast), g)
    ensures DirectionWord(s, g) == Some(fast)
  {
    if fast {
      assert s[g..g + 4][0] == 'f';
      SlowAt(s, g);
    }
  }

  lemma MatchWordAt(s: string, f: nat, g: nat, w4: string, fast: bool)
    requires f <= |s| && w4 != [] && g == f + |w4| && SpaceRun(s, f) == |w4|
    requires DirectionWord(s, g) == Some(fast)
    ensures MatchWord(s, f) == Some(fast)
  {
  }

  lemma MatchDirectionAt(s: string, en: nat, d: nat, f: nat, w3: string, fast: bool)
    requires en <= |s| && w3 != [] && d == en + |w3| && f == d + 7 && SpaceRun(s, en) == |w3|
    requires OccursAt(s, "seconds", d) && MatchWord(s, f) == Some(fast)
    ensures MatchDirection(s, en) == Some(fast)
  {
  }

  /** `MatchSystemTime` from its two parts. */
  lemma SystemTimeFrom(s: string, p: nat, a: nat, c: Capture, fast: bool)
    requires a == p + 11 && a <= |s| && OccursAt(s, "System time", p) && c.fast == fast
    requires MatchColon(s, a) == Some(Capture(c.start, c.end, true)) && MatchDirection(s, c.end) == Some(fast)
    ensures MatchSystemTime(s, p) == Some(c)
  {
    LabeledFrom(s, p, "System time", a, c.start, c.end);
  }

  lemma LabeledFrom(s: string, i: nat, tag: string, a: nat, st: nat, en: nat)
    requires a == i + |tag| && a <= |s| && OccursAt(s, tag, i)
    requires MatchColon(s, a) == Some(Capture(st, en, true))
    ensures MatchLabeled(s, i, tag) == Some(Capture(st, en, true))
  {
  }

  lemma SpaceNotNum(c: char)
    requires IsSpace(c)
    ensures !IsNumChar(c)
  {
  }

  lemma NumNotSpace(c: char)
    requires IsNumChar(c)
    ensures !IsSpace(c)
  {
  }

  /** Whether `slow` occurs at `g` is decided by the character there. */
  lemma SlowAt(s: string, g: nat)
    ensures OccursAt(s, "slow", g) ==> s[g] == 's'
  {
    if OccursAt(s, "slow", g) {
      assert s[g..g + 4][0] == 's';
    }
  }

  /** `n` sits in `s` at index `i`, stated character by character. */
  predicate Piece(s: string, n: string, i: nat) {
    i + |n| <= |s| && forall k :: 0 <= k < |n| ==> s[i + k] == n[k]
  }

  lemma PieceOccurs(s: string, n: string, i: nat)
    requires Piece(s, n, i)
    ensures OccursAt(s, n, i)
  {
    assert s[i..i + |n|] == n;
  }

  lemma PiecePrefix(x: string, y: string)
    ensures Piece(x + y, x, 0)
  {
  }

  /** A piece of `y` at `j` sits in `x + y` at `k`, `|x|` further on. */
  lemma PieceShift(x: string, y: string, n: string, j: nat, k: nat)
    requires Piece(y, n, j) && k == |x| + j
    ensures Piece(x + y, n, k)
  {
    forall i | 0 <= i < |n| ensures (x + y)[k + i] == n[i] {
      assert (x + y)[k + i] == y[j + i];
    }
  }

  lemma HeadAt(s: string, n: string, o: nat)
    requires Piece(s, n, o) && n != []
    ensures s[o] == n[0]
  {
    assert s[o + 0] == n[0];
  }

  /** The whitespace run at `o` is all of `w` when `w` sits there and is
      followed, at `e`, by a character that is not whitespace. */
  lemma SpaceRunAt(s: string, o: nat, w: string, e: nat)
    requires IsBlank(w) && Piece(s, w, o) && e == o + |w| && e < |s| && !IsSpace(s[e])
    ensures SpaceRun(s, o) == |w|
  {
    forall k | o <= k < e ensures IsSpace(s[k]) {
      assert s[o + (k - o)] == w[k - o];
    }
    SpaceRunAll(s, o, |w|);
  }

  /** Likewise for a `[-\d.]` run. */
  lemma NumRunAt(s: string, o: nat, v: string, e: nat)
    requires IsNumText(v) && Piece(s, v, o) && e == o + |v| && e < |s| && !IsNumChar(s[e])
    ensures NumRun(s, o) == |v|
  {
    forall k | o <= k < e ensures IsNumChar(s[k]) {
      assert s[o + (k - o)] == v[k - o];
    }
    NumRunAll(s, o, |v|);
  }

  /** No system-time match starts inside `pre`: a match there would either
      lie inside `pre` or run over the newline that ends it. */
  lemma NoneBeforeLine(out: string, pre: string, p: nat)
    requires p == |pre| <= |out| && out[..p] == pre
    requires pre == [] || pre[|pre| - 1] == '\n'
    requires !Contains(pre, "System time")
    ensures forall k :: 0 <= k < p ==> MatchSystemTime(out, k).None?
  {
    forall k | 0 <= k < p ensures MatchSystemTime(out, k).None? {
      if OccursAt(out, "System time", k) {
        assert out[p - 1] == pre[p - 1];
        TagBeforeBreak(out, k, p);
        assert pre[k..k + 11] == out[k..k + 11];
        assert OccursAt(pre, "System time", k);
        ContainsAt(pre, "System time");
        assert false;
      }
    }
  }

  /** "System time" holds no newline, so an occurrence that starts before
      a newline ends before it. */
  lemma TagBeforeBreak(out: string, k: nat, p: nat)
    requires OccursAt(out, "System time", k) && k < p <= |out| && out[p - 1] == '\n'
    ensures k + 11 <= p
  {
    var tag := "System time";
    assert forall q :: k <= q < k + 11 ==> out[q] == tag[q - k];
    assert forall q :: k <= q < k + 11 ==> out[q] != '\n';
  }

  /** The search passes over positions where nothing matches. */
  lemma {:induction false} SearchSkips(s: string, i: nat, p: nat)
    requires i <= p <= |s|
    requires forall k :: i <= k < p ==> MatchSystemTime(s, k).None?
    ensures SearchSystemTime(s, i) == SearchSystemTime(s, p)
    decreases p - i
  {
    if i < p {
      SearchStep(s, i);
      SearchSkips(s, i + 1, p);
    }
  }

  /** One position without a match is passed over. */
  lemma SearchStep(s: string, i: nat)
    requires i < |s| && MatchSystemTime(s, i).None?
    ensures SearchSystemTime(s, i) == SearchSystemTime(s, i + 1)
  {
  }

  lemma {:induction false} SpaceRunAll(s: string, j: nat, n: nat)
    requires j + n < |s|
    requires forall k :: j <= k < j + n ==> IsSpace(s[k])
    requires !IsSpace(s[j + n])
    ensures SpaceRun(s, j) == n
    decreases n
  {
    if n > 0 {
      SpaceRunAll(s, j + 1, n - 1);
    }
  }

  lemma {:induction false} NumRunAll(s: string, j: nat, n: nat)
    requires j + n < |s|
    requires forall k :: j <= k < j + n ==> IsNumChar(s[k])
    requires !IsNumChar(s[j + n])
    ensures NumRun(s, j) == n
    decreases n
  {
    if n > 0 {
      NumRunAll(s, j + 1, n - 1);
    }
  }
}
