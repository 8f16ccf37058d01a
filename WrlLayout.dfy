/** Layouts other than the printer's single line. The grammar of
    tools_misc/wrl_to_obj.py:15-93 skips any whitespace before every token, and
    the exporter wraps long index arrays over several lines with the comma glued
    to the index before it (tools_misc/wrl_to_obj.py:73-77). Here every token
    reads back after any whitespace at all, and index groups laid out with any
    whitespace before every index, comma and terminator read back as the groups. */
module WrlLayout {
  import opened Text
  import opened WrlAst
  import opened WrlParser
  import opened WrlPrinter

  /** A literal is read back after any whitespace at all, not only after one space. */
  lemma TokenReadsBack(ws: string, w: string, rest: string)
    requires AllSpace(ws) && w != [] && !IsSpace(w[0])
    ensures Token(ws + (w + rest), w) == Some(rest)
  {
    var t := w + rest;
    SpaceBeforeToken(ws, t, w);
    assert t[0] == w[0];
    SkipWsNone(t);
    assert t[|w|..] == rest;
  }

  /** A float is read back after any whitespace, whatever follows that cannot continue it. */
  lemma FloatReadsBack(ws: string, f: string, rest: string)
    requires AllSpace(ws) && IsFloat(f) && (rest == [] || !IsDigit(rest[0]))
    ensures FloatTok(ws + (f + rest)) == Some((f, rest))
  {
    SpaceBeforeFloat(ws, f + rest);
    FloatAtStart(f, rest);
  }

  lemma FloatAtStart(f: string, rest: string)
    requires IsFloat(f) && (rest == [] || !IsDigit(rest[0]))
    ensures FloatTok(f + rest) == Some((f, rest))
  {
    var t := f + rest;
    FloatStart(f);
    assert t[0] == f[0];
    SkipWsNone(t);
    FloatMatchAppend(f, rest);
    assert t[..|f|] == f && t[|f|..] == rest;
  }

  /** An index is read back after any whitespace, whatever follows that cannot continue it. */
  lemma IndexReadsBack(ws: string, n: nat, rest: string)
    requires AllSpace(ws) && (rest == [] || !IsDigit(rest[0]))
    ensures IndexTok(ws + (NatToString(n) + rest)) == Some((n, rest))
  {
    SpaceBeforeIndex(ws, NatToString(n) + rest);
    IndexAtStart(n, rest);
  }

  lemma IndexAtStart(n: nat, rest: string)
    requires rest == [] || !IsDigit(rest[0])
    ensures IndexTok(NatToString(n) + rest) == Some((n, rest))
  {
    var d := NatToString(n);
    var t := d + rest;
    assert t[0] == d[0] && IsDigit(d[0]);
    SkipWsNone(t);
    IndexTokReadsDigits(t, d, rest);
    NatToStringRoundTrip(n);
  }

  /** Text that cannot continue a number: empty, or led by something other than a digit. */
  predicate Stops(s: string) {
    s == [] || !IsDigit(s[0])
  }

  /** A point read back from any layout of its three floats, provided each float is
      set off from the one before it by whitespace or its own minus sign. */
  lemma LaidPointRead(p: Point, ws: seq<string>, rest: string)
    requires ValidPoint(p) && |ws| == 3 && AllSpace(ws[0]) && AllSpace(ws[1]) && AllSpace(ws[2])
    requires Stops(ws[1] + p.y) && Stops(ws[2] + p.z) && Stops(rest)
    ensures PointP(ws[0] + (p.x + (ws[1] + (p.y + (ws[2] + (p.z + rest)))))) == Some((p, rest))
  {
    FloatReadsBack(ws[2], p.z, rest);
    FloatReadsBack(ws[1], p.y, ws[2] + (p.z + rest));
    StopsAppend(ws[2] + p.z, rest);
    FloatReadsBack(ws[0], p.x, ws[1] + (p.y + (ws[2] + (p.z + rest))));
    StopsAppend(ws[1] + p.y, ws[2] + (p.z + rest));
  }

  lemma StopsAppend(a: string, b: string)
    requires a != [] && Stops(a)
    ensures Stops(a + b)
  {
    assert (a + b)[0] == a[0];
  }

  /** Whitespace, then a comma: never the continuation of a number. */
  lemma SpaceThenComma(ws: string, t: string)
    requires AllSpace(ws)
    ensures !IsDigit((ws + ("," + t))[0])
  {
    if ws != [] {
      assert (ws + ("," + t))[0] == ws[0] && IsSpace(ws[0]);
    } else {
      assert ws + ("," + t) == "," + t;
    }
  }

  /** No index starts at a word that does not begin with a digit, such as the `-1`
      terminator or a closing bracket, whatever whitespace comes before it. */
  lemma NoIndexAt(ws: string, w: string, rest: string)
    requires AllSpace(ws) && w != [] && !IsSpace(w[0]) && !IsDigit(w[0])
    ensures IndexTok(ws + (w + rest)) == None
  {
    var t := w + rest;
    SpaceBeforeIndex(ws, t);
    assert t[0] == w[0];
    SkipWsNone(t);
    IndexTokReads(t);
  }

  /** The whitespace before one index and before the comma that follows it. */
  datatype Gap = Gap(before: string, beforeComma: string)

  /** The whitespace of one index group: around each index, before its `-1`, and
      before the comma that follows the group in the list. */
  datatype GroupLayout = GroupLayout(indices: seq<Gap>, beforeEnd: string, beforeComma: string)

  predicate SpaceGaps(gaps: seq<Gap>) {
    forall k :: 0 <= k < |gaps| ==> AllSpace(gaps[k].before) && AllSpace(gaps[k].beforeComma)
  }

  predicate FitsGroup(g: seq<nat>, l: GroupLayout) {
    |l.indices| == |g| && SpaceGaps(l.indices) && AllSpace(l.beforeEnd) && AllSpace(l.beforeComma)
  }

  predicate FitsGroups(gs: seq<seq<nat>>, ls: seq<GroupLayout>) {
    |ls| == |gs| && forall k :: 0 <= k < |gs| ==> FitsGroup(gs[k], ls[k])
  }

  lemma SpaceGapsSplit(gaps: seq<Gap>)
    requires gaps != [] && SpaceGaps(gaps)
    ensures AllSpace(gaps[0].before) && AllSpace(gaps[0].beforeComma) && SpaceGaps(gaps[1..])
  {
    assert forall k :: 0 <= k < |gaps| - 1 ==> gaps[1..][k] == gaps[k + 1];
  }

  lemma FitsGroupsSplit(gs: seq<seq<nat>>, ls: seq<GroupLayout>)
    requires gs != [] && ValidGroups(gs) && FitsGroups(gs, ls)
    ensures NonEmptyGroup(gs[0]) && FitsGroup(gs[0], ls[0])
    ensures ValidGroups(gs[1..]) && FitsGroups(gs[1..], ls[1..])
  {
    assert forall k :: 0 <= k < |gs| - 1 ==> gs[1..][k] == gs[k + 1] && ls[1..][k] == ls[k + 1];
  }

  /** Each index with its glued or spaced comma, laid out by `gaps`. */
  function LaidIndices(g: seq<nat>, gaps: seq<Gap>, rest: string): string
    requires |gaps| == |g|
  {
    if g == [] then rest
    else gaps[0].before + (NatToString(g[0]) + (gaps[0].beforeComma + ("," + LaidIndices(g[1..], gaps[1..], rest))))
  }

  function LaidGroup(g: seq<nat>, l: GroupLayout, rest: string): string
    requires |l.indices| == |g|
  {
    LaidIndices(g, l.indices, l.beforeEnd + ("-1" + rest))
  }

  /** Index groups, each followed by a comma: the exporter's multi-line form, whose
      last group also has one. */
  function LaidGroups(gs: seq<seq<nat>>, ls: seq<GroupLayout>, rest: string): string
    requires |ls| == |gs| && forall k :: 0 <= k < |gs| ==> |ls[k].indices| == |gs[k]|
  {
    if gs == [] then rest
    else LaidGroup(gs[0], ls[0], ls[0].beforeComma + ("," + LaidGroups(gs[1..], ls[1..], rest)))
  }

  lemma {:induction false} LaidIndicesRead(g: seq<nat>, gaps: seq<Gap>, rest: string)
    requires |gaps| == |g| && SpaceGaps(gaps) && IndexTok(rest) == None
    ensures CommaLoop(IndexTok, LaidIndices(g, gaps, rest)) == (g, rest)
  {
    if g == [] {
      CommaLoopStop(IndexTok, rest);
    } else {
      var tail := LaidIndices(g[1..], gaps[1..], rest);
      var after := gaps[0].beforeComma + ("," + tail);
      SpaceGapsSplit(gaps);
      LaidIndexStep(g[0], gaps[0], tail);
      LaidIndicesRead(g[1..], gaps[1..], rest);
      CommaLoopUnfold(IndexTok, LaidIndices(g, gaps, rest), g[0], after, tail);
      HeadTail(g);
    }
  }

  /** One index and its comma, laid out by `gap`. */
  lemma LaidIndexStep(n: nat, gap: Gap, tail: string)
    requires AllSpace(gap.before) && AllSpace(gap.beforeComma)
    ensures IndexTok(gap.before + (NatToString(n) + (gap.beforeComma + ("," + tail))))
            == Some((n, gap.beforeComma + ("," + tail)))
    ensures Token(gap.beforeComma + ("," + tail), ",") == Some(tail)
  {
    SpaceThenComma(gap.beforeComma, tail);
    IndexReadsBack(gap.before, n, gap.beforeComma + ("," + tail));
    TokenReadsBack(gap.beforeComma, ",", tail);
  }

  /** A group read back from any whitespace layout; the `-1` is consumed, not stored. */
  lemma LaidGroupRead(g: seq<nat>, l: GroupLayout, rest: string)
    requires NonEmptyGroup(g) && FitsGroup(g, l)
    ensures IndexGroup(LaidGroup(g, l, rest)) == Some((g, rest))
  {
    var e := l.beforeEnd + ("-1" + rest);
    NoIndexAt(l.beforeEnd, "-1", rest);
    LaidIndicesRead(g, l.indices, e);
    TokenReadsBack(l.beforeEnd, "-1", rest);
    IndexGroupOf(LaidGroup(g, l, rest), g, e, rest);
  }

  lemma {:induction false} LaidGroupsLoop(gs: seq<seq<nat>>, ls: seq<GroupLayout>, rest: string)
    requires ValidGroups(gs) && FitsGroups(gs, ls) && IndexGroup(rest) == None
    ensures CommaLoop(IndexGroup, LaidGroups(gs, ls, rest)) == (gs, rest)
  {
    if gs == [] {
      CommaLoopStop(IndexGroup, rest);
    } else {
      var tail := LaidGroups(gs[1..], ls[1..], rest);
      var after := ls[0].beforeComma + ("," + tail);
      FitsGroupsSplit(gs, ls);
      LaidGroupRead(gs[0], ls[0], after);
      TokenReadsBack(ls[0].beforeComma, ",", tail);
      LaidGroupsLoop(gs[1..], ls[1..], rest);
      CommaLoopUnfold(IndexGroup, LaidGroups(gs, ls, rest), gs[0], after, tail);
      HeadTail(gs);
    }
  }

  /** Index groups in any whitespace layout with the trailing comma, as the exporter
      wraps them over lines, read back as the groups, up to the text after the last comma. */
  lemma LaidGroupsRead(gs: seq<seq<nat>>, ls: seq<GroupLayout>, rest: string)
    requires ValidGroups(gs) && FitsGroups(gs, ls) && IndexTok(rest) == None
    ensures IndexGroups(LaidGroups(gs, ls, rest)) == (gs, rest)
  {
    CommaLoopStop(IndexTok, rest);
    LaidGroupsLoop(gs, ls, rest);
  }

  /** The layout of one exported row of three indices: `first` before the row, one space
      before each later index and before the `-1`, every comma glued. */
  function Row(first: string): GroupLayout {
    GroupLayout([Gap(first, ""), Gap(" ", ""), Gap(" ", "")], " ", "")
  }

  lemma RowFits(g: seq<nat>, first: string)
    requires |g| == 3 && AllSpace(first)
    ensures FitsGroup(g, Row(first))
  {
    var gaps := Row(first).indices;
    assert AllSpace(" ") && AllSpace("");
    assert forall k :: 0 <= k < 3 ==> gaps[k].before == first || gaps[k].before == " ";
  }

  lemma WrappedRowsFit(gs: seq<seq<nat>>, ls: seq<GroupLayout>)
    requires gs == [[0, 1, 2], [3, 4, 5]] && ls == [Row(""), Row("\n    ")]
    ensures ValidGroups(gs) && FitsGroups(gs, ls)
  {
    assert AllSpace("\n    ");
    RowFits(gs[0], "");
    RowFits(gs[1], "\n    ");
  }

  /** example: `0, 1, 2, -1,` and `3, 4, 5, -1,` on an indented second line, with the
      closing bracket on a line of its own, read as the two groups. */
  lemma WrappedRowsExample()
    ensures IndexGroups(LaidGroups([[0, 1, 2], [3, 4, 5]], [Row(""), Row("\n    ")], "\n]"))
            == ([[0, 1, 2], [3, 4, 5]], "\n]")
  {
    WrappedRowsFit([[0, 1, 2], [3, 4, 5]], [Row(""), Row("\n    ")]);
    assert AllSpace("\n") && "\n]" == "\n" + ("]" + "");
    NoIndexAt("\n", "]", "");
    LaidGroupsRead([[0, 1, 2], [3, 4, 5]], [Row(""), Row("\n    ")], "\n]");
  }
}
