/** The OBJ emitter `convert_wrl_to_obj` (tools_misc/wrl_to_obj.py:169-201): every
    separator's points become `v` lines at once, while its `o`, `f` and `l` lines are
    held back and written after the last vertex, with the separator's own indices
    shifted by the number of vertices written before it. */
module ObjEmitter {
  import opened Text
  import opened WrlAst
  import opened WrlParser
  import opened Outcome
  import opened Classifier

  /** The comment line written before the input is even parsed. */
  const Banner := "# This is a converted tool.exe WRL file. Import with settings Y forward and Z up"

  /** One line of OBJ output. Indices are the global, 1-based ones. */
  datatype ObjLine =
    | Vertex(p: Point)
    | Object(verdict: Verdict)
    | Face(a: nat, b: nat, c: nat)
    | Segment(a: nat, b: nat)

  /** The global indices a face or line record refers to, in order. */
  function Indices(l: ObjLine): seq<nat> {
    match l
    case Face(a, b, c) => [a, b, c]
    case Segment(a, b) => [a, b]
    case _ => []
  }

  function Render(l: ObjLine): string {
    match l
    case Vertex(p) => "v " + p.x + " " + p.y + " " + p.z
    case Object(v) => "o Error geometry: " + Title(v)
    case Face(a, b, c) => "f " + NatToString(a) + " " + NatToString(b) + " " + NatToString(c)
    case Segment(a, b) => "l " + NatToString(a) + " " + NatToString(b)
  }

  /** The text of a list of lines, one string per line. */
  function RenderAll(ls: seq<ObjLine>): seq<string> {
    if ls == [] then [] else RenderAll(ls[..|ls| - 1]) + [Render(ls[|ls| - 1])]
  }

  /** Rendering a list gives one string per line. */
  lemma {:induction false} RenderAllLength(ls: seq<ObjLine>)
    ensures |RenderAll(ls)| == |ls|
  {
    if ls != [] {
      RenderAllLength(ls[..|ls| - 1]);
    }
  }

  /** Rendering a list renders each line in its place. */
  lemma {:induction false} RenderAt(ls: seq<ObjLine>, k: nat)
    requires k < |ls|
    ensures |RenderAll(ls)| == |ls| && RenderAll(ls)[k] == Render(ls[k])
  {
    RenderAllLength(ls);
    if k < |ls| - 1 {
      RenderAt(ls[..|ls| - 1], k);
    }
  }

  /** Rendering distributes over concatenation. */
  lemma {:induction false} RenderAppend(a: seq<ObjLine>, b: seq<ObjLine>)
    ensures RenderAll(a + b) == RenderAll(a) + RenderAll(b)
  {
    if b != [] {
      var init := b[..|b| - 1];
      assert (a + b)[..|a + b| - 1] == a + init;
      RenderAppend(a, init);
    } else {
      assert a + b == a;
    }
  }

  /** The vertex line of every point, in order. */
  function Vertices(ps: seq<Point>): seq<ObjLine> {
    if ps == [] then [] else Vertices(ps[..|ps| - 1]) + [Vertex(ps[|ps| - 1])]
  }

  /** Every point gets one vertex line, in its place. */
  lemma {:induction false} VerticesSpec(ps: seq<Point>)
    ensures |Vertices(ps)| == |ps| && forall k :: 0 <= k < |ps| ==> Vertices(ps)[k] == Vertex(ps[k])
  {
    if ps != [] {
      VerticesSpec(ps[..|ps| - 1]);
    }
  }

  lemma {:induction false} VerticesConcat(a: seq<Point>, b: seq<Point>)
    ensures Vertices(a + b) == Vertices(a) + Vertices(b)
  {
    if b != [] {
      var init := b[..|b| - 1];
      assert (a + b)[..|a + b| - 1] == a + init;
      VerticesConcat(a, init);
    } else {
      assert a + b == a;
    }
  }

  /** Which index block a group comes from: a face needs three indices, a line two. */
  datatype GroupKind = Faces | Lines

  function Arity(kind: GroupKind): nat {
    match kind
    case Faces => 3
    case Lines => 2
  }

  function TooShort(kind: GroupKind): Failure {
    match kind
    case Faces => FaceTooShort
    case Lines => LineTooShort
  }

  /** The record of one group: the first indices, shifted by `base`; any further
      indices are dropped, and too few indices fail. */
  function GroupRecord(kind: GroupKind, g: seq<nat>, base: nat): (r: Result<ObjLine>)
    ensures r.Err? <==> |g| < Arity(kind)
    ensures r.Err? ==> r.error == TooShort(kind)
    ensures r.Ok? ==> (r.value.Face? || r.value.Segment?) && (r.value.Face? <==> kind == Faces)
    ensures r.Ok? ==> |Indices(r.value)| == Arity(kind)
                      && forall i :: 0 <= i < Arity(kind) ==> Indices(r.value)[i] == g[i] + base
  {
    if |g| < Arity(kind) then Err(TooShort(kind))
    else match kind
      case Faces => Ok(Face(g[0] + base, g[1] + base, g[2] + base))
      case Lines => Ok(Segment(g[0] + base, g[1] + base))
  }

  /** The records of a list of groups, or the failure of the first group that is too short. */
  function GroupRecords(kind: GroupKind, gs: seq<seq<nat>>, base: nat): (r: Result<seq<ObjLine>>)
  {
    if gs == [] then Ok([])
    else
      var init :- GroupRecords(kind, gs[..|gs| - 1], base);
      var last :- GroupRecord(kind, gs[|gs| - 1], base);
      Ok(init + [last])
  }

  /** The records of an optional index block; an absent block adds nothing. */
  function BlockRecords(kind: GroupKind, block: Option<seq<seq<nat>>>, base: nat): Result<seq<ObjLine>> {
    if block.Some? then GroupRecords(kind, block.value, base) else Ok([])
  }

  /** What one separator adds to the held-back lines: its object line, then its faces,
      then its lines, every index shifted by `base`. */
  function SeparatorObjects(sep: Separator, base: nat): Result<seq<ObjLine>> {
    var verdict :- Classify(sep.binding, DiffuseColors(sep));
    var faces :- BlockRecords(Faces, sep.indexedFaces, base);
    var lines :- BlockRecords(Lines, sep.indexedLines, base);
    Ok([Object(verdict)] + faces + lines)
  }

  /** The converter's state after some separators: the vertices written, the lines held
      back, the next vertex number, and the failure that stopped it, if any. */
  datatype Progress = Progress(vertices: seq<Point>, objects: seq<ObjLine>, next: nat, failure: Option<Failure>)

  function Step(st: Progress, sep: Separator): Progress {
    match SeparatorObjects(sep, st.next)
    case Err(e) => st.(failure := Some(e))
    case Ok(objs) =>
      if sep.coords.None? then st.(failure := Some(CoordsMissing))
      else Progress(st.vertices + sep.coords.value, st.objects + objs, st.next + |sep.coords.value|, None)
  }

  /** The state after the separators of `doc`, in order; nothing happens after a failure. */
  function Run(doc: Document): Progress {
    if doc == [] then Progress([], [], 1, None)
    else
      var before := Run(doc[..|doc| - 1]);
      if before.failure.Some? then before else Step(before, doc[|doc| - 1])
  }

  /** The lines written to the output and the failure that escaped, if any. */
  datatype Conversion = Conversion(written: seq<string>, failure: Option<Failure>)

  /** The whole conversion of an input text. The banner is written before parsing and the
      vertices as they are met, so a failure leaves them in the output; the held-back
      lines are written only when every separator went through. */
  function Convert(text: string): Conversion {
    match Parse(text)
    case None => Conversion([Banner], Some(SyntaxError))
    case Some(doc) => Conversion([Banner] + Output(Run(doc)), Run(doc).failure)
  }

  /** What a run over the separators writes after the banner. */
  function Output(st: Progress): seq<string> {
    RenderAll(Vertices(st.vertices)) + if st.failure.None? then RenderAll(st.objects) else []
  }

  // ---------------------------------------------------------------- properties

  function CoordsOf(sep: Separator): seq<Point> {
    if sep.coords.Some? then sep.coords.value else []
  }

  /** The points of all separators, in document order. */
  function AllCoords(doc: Document): seq<Point> {
    if doc == [] then [] else AllCoords(doc[..|doc| - 1]) + CoordsOf(doc[|doc| - 1])
  }

  predicate GroupsFit(kind: GroupKind, block: Option<seq<seq<nat>>>) {
    block.Some? ==> forall k :: 0 <= k < |block.value| ==> |block.value[k]| >= Arity(kind)
  }

  /** The failure a separator raises, as an independent reference: the checks in the
      order the converter meets them (classification, faces, lines, points). */
  function FailureOf(sep: Separator): Option<Failure> {
    if DiffuseColors(sep).None? || DiffuseColors(sep).value == [] then Some(ColorInfoUnbound)
    else if !GroupsFit(Faces, sep.indexedFaces) then Some(FaceTooShort)
    else if !GroupsFit(Lines, sep.indexedLines) then Some(LineTooShort)
    else if sep.coords.None? then Some(CoordsMissing)
    else None
  }

  /** A separator the converter gets through. */
  predicate SeparatorOk(sep: Separator) {
    FailureOf(sep).None?
  }

  /** The records of a list of groups are the groups' records one by one, and there is
      a failure exactly when some group is too short. */
  lemma {:induction false} GroupRecordsSpec(kind: GroupKind, gs: seq<seq<nat>>, base: nat)
    ensures GroupRecords(kind, gs, base).Err? <==> exists k :: 0 <= k < |gs| && |gs[k]| < Arity(kind)
    ensures GroupRecords(kind, gs, base).Err? ==> GroupRecords(kind, gs, base).error == TooShort(kind)
    ensures GroupRecords(kind, gs, base).Ok? ==>
      var rs := GroupRecords(kind, gs, base).value;
      |rs| == |gs| && forall k :: 0 <= k < |gs| ==> rs[k] == GroupRecord(kind, gs[k], base).value
  {
    if gs != [] {
      var init := gs[..|gs| - 1];
      GroupRecordsSpec(kind, init, base);
      assert forall k :: 0 <= k < |init| ==> init[k] == gs[k];
      if GroupRecords(kind, init, base).Err? {
        var k :| 0 <= k < |init| && |init[k]| < Arity(kind);
        assert |gs[k]| < Arity(kind);
      }
    }
  }

  lemma {:induction false} BlockRecordsOk(kind: GroupKind, block: Option<seq<seq<nat>>>, base: nat)
    ensures BlockRecords(kind, block, base).Ok? <==> GroupsFit(kind, block)
    ensures BlockRecords(kind, block, base).Err? ==> BlockRecords(kind, block, base).error == TooShort(kind)
  {
    if block.Some? {
      GroupRecordsSpec(kind, block.value, base);
    }
  }

  /** A separator's held-back lines come out exactly when it has colours and long
      enough groups, and a failure is the first of those checks to fail; the absence of
      points is only noticed afterwards. */
  lemma {:induction false} SeparatorObjectsOk(sep: Separator, base: nat)
    ensures SeparatorObjects(sep, base).Ok? <==> FailureOf(sep).None? || FailureOf(sep) == Some(CoordsMissing)
    ensures SeparatorObjects(sep, base).Err? ==> FailureOf(sep) == Some(SeparatorObjects(sep, base).error)
  {
    BlockRecordsOk(Faces, sep.indexedFaces, base);
    BlockRecordsOk(Lines, sep.indexedLines, base);
  }

  /** The held-back lines of a separator, as text: the object line carries the string
      `infer_error_type` returns, then come the faces, then the lines. */
  lemma {:induction false} SeparatorText(sep: Separator, base: nat)
    requires SeparatorObjects(sep, base).Ok?
    ensures ErrorType(sep.binding, DiffuseColors(sep)).Ok?
    ensures BlockRecords(Faces, sep.indexedFaces, base).Ok? && BlockRecords(Lines, sep.indexedLines, base).Ok?
    ensures RenderAll(SeparatorObjects(sep, base).value) ==
      ["o Error geometry: " + ErrorType(sep.binding, DiffuseColors(sep)).value]
      + RenderAll(BlockRecords(Faces, sep.indexedFaces, base).value)
      + RenderAll(BlockRecords(Lines, sep.indexedLines, base).value)
  {
    var v := Classify(sep.binding, DiffuseColors(sep)).value;
    var faces := BlockRecords(Faces, sep.indexedFaces, base).value;
    var lines := BlockRecords(Lines, sep.indexedLines, base).value;
    assert SeparatorObjects(sep, base).value == [Object(v)] + faces + lines;
    RenderThree(Object(v), faces, lines);
  }

  /** A leading line, then two lists, rendered one after the other. */
  lemma {:induction false} RenderThree(head: ObjLine, a: seq<ObjLine>, b: seq<ObjLine>)
    ensures RenderAll([head] + a + b) == [Render(head)] + RenderAll(a) + RenderAll(b)
  {
    RenderAppend([head] + a, b);
    RenderAppend([head], a);
    RenderOne(head);
  }

  lemma {:induction false} RenderOne(l: ObjLine)
    ensures RenderAll([l]) == [Render(l)]
  {
    assert [l][..0] == [];
  }

  /** A separator that goes through writes its points and holds back its lines. */
  lemma {:induction false} StepOkShape(st: Progress, sep: Separator)
    requires st.failure.None? && SeparatorOk(sep)
    ensures SeparatorObjects(sep, st.next).Ok?
    ensures Step(st, sep) == Progress(st.vertices + sep.coords.value, st.objects + SeparatorObjects(sep, st.next).value, st.next + |sep.coords.value|, None)
  {
    SeparatorObjectsOk(sep, st.next);
  }

  /** One more point adds one `v` line. */
  lemma {:induction false} VertexLine(ps: seq<Point>, p: Point)
    ensures RenderAll(Vertices(ps + [p])) == RenderAll(Vertices(ps)) + ["v " + p.x + " " + p.y + " " + p.z]
  {
    assert (ps + [p])[..|ps|] == ps;
    RenderAppend(Vertices(ps), [Vertex(p)]);
    RenderOne(Vertex(p));
  }

  /** One separator after a run without failure: the failure is the separator's own,
      and a failing separator changes nothing else. */
  lemma {:induction false} StepFailure(st: Progress, sep: Separator)
    requires st.failure.None?
    ensures Step(st, sep).failure == FailureOf(sep)
    ensures FailureOf(sep).Some? ==> Step(st, sep) == st.(failure := FailureOf(sep))
  {
    SeparatorObjectsOk(sep, st.next);
  }

  /** After a run without failure every point has been written once, in order, and the
      vertex counter is one past the number of points. */
  lemma {:induction false} RunCounts(doc: Document)
    ensures Run(doc).failure.None? ==> Run(doc).vertices == AllCoords(doc) && Run(doc).next == 1 + |AllCoords(doc)|
  {
    if doc != [] {
      RunCounts(doc[..|doc| - 1]);
    }
  }

  lemma {:induction false} RunLast(doc: Document)
    requires doc != []
    ensures var before := Run(doc[..|doc| - 1]);
      Run(doc) == if before.failure.Some? then before else Step(before, doc[|doc| - 1])
  {
  }

  lemma {:induction false} RunOkLast(doc: Document)
    requires doc != []
    ensures Run(doc).failure.None? <==> Run(doc[..|doc| - 1]).failure.None? && SeparatorOk(doc[|doc| - 1])
  {
    var before := Run(doc[..|doc| - 1]);
    var sep := doc[|doc| - 1];
    RunLast(doc);
    if before.failure.None? {
      StepFailure(before, sep);
    }
  }

  /** The conversion goes through exactly when every separator is one it gets through. */
  lemma {:induction false} SucceedsIff(doc: Document)
    ensures Run(doc).failure.None? <==> forall k :: 0 <= k < |doc| ==> SeparatorOk(doc[k])
  {
    if doc != [] {
      var init := doc[..|doc| - 1];
      SucceedsIff(init);
      RunOkLast(doc);
      assert doc == init + [doc[|doc| - 1]];
      AllOkLast(init, doc[|doc| - 1]);
    }
  }

  /** Every separator is one the converter gets through exactly when every one before
      the last is and the last one is. */
  lemma {:induction false} AllOkLast(init: Document, last: Separator)
    ensures (forall k :: 0 <= k < |init + [last]| ==> SeparatorOk((init + [last])[k]))
      <==> (forall k :: 0 <= k < |init| ==> SeparatorOk(init[k])) && SeparatorOk(last)
  {
    var doc := init + [last];
    assert forall k :: 0 <= k < |init| ==> init[k] == doc[k];
    assert doc[|init|] == last;
  }

  /** Every separator of a run that goes through is one the converter gets through. */
  lemma {:induction false} OkAt(doc: Document, k: nat)
    requires Run(doc).failure.None? && k < |doc|
    ensures SeparatorOk(doc[k])
  {
    SucceedsIff(doc);
  }

  /** Once a separator has failed, the separators after it change nothing. */
  lemma {:induction false} RunAfterFailure(doc: Document, j: nat)
    requires j <= |doc| && Run(doc[..j]).failure.Some?
    ensures Run(doc) == Run(doc[..j])
    decreases |doc| - j
  {
    if j == |doc| {
      assert doc[..j] == doc;
    } else {
      RunLast(doc[..j + 1]);
      assert doc[..j + 1][..j] == doc[..j];
      RunAfterFailure(doc, j + 1);
    }
  }

  /** The first separator that fails decides the failure, and the output keeps the points
      of the separators before it. */
  lemma {:induction false} FirstFailure(doc: Document, k: nat)
    requires k < |doc| && !SeparatorOk(doc[k])
    requires forall j :: 0 <= j < k ==> SeparatorOk(doc[j])
    ensures Run(doc).failure == FailureOf(doc[k])
    ensures Run(doc).vertices == AllCoords(doc[..k])
  {
    var before := doc[..k];
    assert forall j :: 0 <= j < k ==> before[j] == doc[j];
    SucceedsIff(before);
    RunCounts(before);
    RunLast(doc[..k + 1]);
    assert doc[..k + 1][..k] == before;
    StepFailure(Run(before), doc[k]);
    RunAfterFailure(doc, k + 1);
  }

  /** The run over a prefix of a document that goes through also goes through, and its
      held-back lines come first. */
  lemma {:induction false} RunPrefix(doc: Document, j: nat)
    requires j <= |doc| && Run(doc).failure.None?
    ensures Run(doc[..j]).failure.None?
    ensures Run(doc[..j]).objects <= Run(doc).objects
    decreases |doc|
  {
    if j < |doc| {
      var init := doc[..|doc| - 1];
      RunOkLast(doc);
      RunLast(doc);
      RunPrefix(init, j);
      assert init[..j] == doc[..j];
    } else {
      assert doc[..j] == doc;
    }
  }

  /** The points before separator `k` come first among all the points. */
  lemma {:induction false} AllCoordsPrefix(doc: Document, j: nat)
    requires j <= |doc|
    ensures AllCoords(doc[..j]) <= AllCoords(doc)
    decreases |doc|
  {
    if j < |doc| {
      var init := doc[..|doc| - 1];
      AllCoordsPrefix(init, j);
      assert init[..j] == doc[..j];
    } else {
      assert doc[..j] == doc;
    }
  }

  /** Index `i` of separator `k`, shifted as the converter shifts it, is the 1-based number
      of that separator's point `i` among all the points written. */
  lemma {:induction false} GlobalIndex(doc: Document, k: nat, i: nat)
    requires k < |doc| && i < |CoordsOf(doc[k])|
    ensures var n := i + 1 + |AllCoords(doc[..k])|;
      1 <= n <= |AllCoords(doc)| && AllCoords(doc)[n - 1] == CoordsOf(doc[k])[i]
  {
    AllCoordsPrefix(doc, k + 1);
    assert doc[..k + 1][..k] == doc[..k];
    assert AllCoords(doc[..k + 1]) == AllCoords(doc[..k]) + CoordsOf(doc[k]);
  }

  /** A separator that goes through adds its held-back lines, shifted by one plus the
      number of points before it. */
  lemma {:induction false} RunStepObjects(doc: Document, k: nat)
    requires k < |doc| && Run(doc[..k + 1]).failure.None?
    ensures var objs := SeparatorObjects(doc[k], 1 + |AllCoords(doc[..k])|);
      objs.Ok? && Run(doc[..k + 1]).objects == Run(doc[..k]).objects + objs.value
  {
    var before := Run(doc[..k]);
    RunLast(doc[..k + 1]);
    assert doc[..k + 1][..k] == doc[..k];
    RunOkLast(doc[..k + 1]);
    RunCounts(doc[..k]);
    SeparatorObjectsOk(doc[k], before.next);
  }

  /** After a run that goes through, separator `k`'s held-back lines, shifted by one plus
      the number of points before it, sit in the output right after those of the
      separators before it. */
  lemma {:induction false} RunObjectsSlice(doc: Document, k: nat)
    requires k < |doc| && Run(doc).failure.None?
    ensures var objs := SeparatorObjects(doc[k], 1 + |AllCoords(doc[..k])|);
      var start := |Run(doc[..k]).objects|;
      objs.Ok? && start + |objs.value| <= |Run(doc).objects|
      && Run(doc).objects[start..start + |objs.value|] == objs.value
  {
    RunPrefix(doc, k + 1);
    RunStepObjects(doc, k);
    var objs := SeparatorObjects(doc[k], 1 + |AllCoords(doc[..k])|).value;
    var start := |Run(doc[..k]).objects|;
    var whole := Run(doc).objects;
    assert whole[..start + |objs|] == Run(doc[..k + 1]).objects;
    assert whole[start..start + |objs|] == whole[..start + |objs|][start..];
  }

  /** Face `j` of a separator whose held-back lines come out follows its object line and
      its earlier faces, with its first three indices shifted by `base`. */
  lemma {:induction false} SeparatorFace(sep: Separator, base: nat, j: nat)
    requires SeparatorObjects(sep, base).Ok? && sep.indexedFaces.Some? && j < |sep.indexedFaces.value|
    ensures var g := sep.indexedFaces.value[j];
      |g| >= 3 && 1 + j < |SeparatorObjects(sep, base).value|
      && SeparatorObjects(sep, base).value[1 + j] == Face(g[0] + base, g[1] + base, g[2] + base)
  {
    var g := sep.indexedFaces.value[j];
    GroupRecordsSpec(Faces, sep.indexedFaces.value, base);
    var v := Classify(sep.binding, DiffuseColors(sep)).value;
    var faces := BlockRecords(Faces, sep.indexedFaces, base).value;
    var lines := BlockRecords(Lines, sep.indexedLines, base).value;
    assert SeparatorObjects(sep, base).value == [Object(v)] + faces + lines;
    assert ([Object(v)] + faces + lines)[1 + j] == faces[j];
    assert Indices(faces[j]) == [g[0] + base, g[1] + base, g[2] + base];
  }

  /** Line `j` of a separator whose held-back lines come out follows its object line, all
      its faces and its earlier lines, with its first two indices shifted by `base`. */
  lemma {:induction false} SeparatorSegment(sep: Separator, base: nat, j: nat)
    requires SeparatorObjects(sep, base).Ok? && sep.indexedLines.Some? && j < |sep.indexedLines.value|
    ensures var g := sep.indexedLines.value[j];
      var faces := if sep.indexedFaces.Some? then |sep.indexedFaces.value| else 0;
      |g| >= 2 && 1 + faces + j < |SeparatorObjects(sep, base).value|
      && SeparatorObjects(sep, base).value[1 + faces + j] == Segment(g[0] + base, g[1] + base)
  {
    var g := sep.indexedLines.value[j];
    GroupRecordsSpec(Lines, sep.indexedLines.value, base);
    if sep.indexedFaces.Some? {
      GroupRecordsSpec(Faces, sep.indexedFaces.value, base);
    }
    var v := Classify(sep.binding, DiffuseColors(sep)).value;
    var faces := BlockRecords(Faces, sep.indexedFaces, base).value;
    var lines := BlockRecords(Lines, sep.indexedLines, base).value;
    assert SeparatorObjects(sep, base).value == [Object(v)] + faces + lines;
    assert ([Object(v)] + faces + lines)[1 + |faces| + j] == lines[j];
    assert Indices(lines[j]) == [g[0] + base, g[1] + base];
  }

  /** A run that goes through writes every point, then every held-back line. */
  lemma {:induction false} OutputSucceeds(doc: Document)
    requires forall k :: 0 <= k < |doc| ==> SeparatorOk(doc[k])
    ensures Run(doc).failure.None?
    ensures Output(Run(doc)) == RenderAll(Vertices(AllCoords(doc))) + RenderAll(Run(doc).objects)
  {
    SucceedsIff(doc);
    RunCounts(doc);
  }

  /** A run stopped by separator `k` writes the points of the separators before it and
      none of the held-back lines, and fails as separator `k` does. */
  lemma {:induction false} OutputFails(doc: Document, k: nat)
    requires k < |doc| && !SeparatorOk(doc[k])
    requires forall j :: 0 <= j < k ==> SeparatorOk(doc[j])
    ensures Run(doc).failure == FailureOf(doc[k])
    ensures Output(Run(doc)) == RenderAll(Vertices(AllCoords(doc[..k])))
  {
    FirstFailure(doc, k);
    assert Run(doc).failure.Some?;
  }

  // ---------------------------------------------------------------- the converter

  /** The loop over one index block (tools_misc/wrl_to_obj.py:186-189 for faces,
      :190-193 for lines): one formatted line per group, or the failure of the first
      group with too few indices for its format string. */
  method FormatGroups(kind: GroupKind, gs: seq<seq<nat>>, base: nat) returns (lines: seq<string>, failure: Option<Failure>)
    ensures failure.None? <==> GroupRecords(kind, gs, base).Ok?
    ensures failure.None? ==> lines == RenderAll(GroupRecords(kind, gs, base).value)
    ensures failure.Some? ==> failure.value == GroupRecords(kind, gs, base).error
  {
    lines := [];
    var j := 0;
    while j < |gs|
      invariant 0 <= j <= |gs|
      invariant GroupRecords(kind, gs[..j], base).Ok?
      invariant lines == RenderAll(GroupRecords(kind, gs[..j], base).value)
    {
      var g := gs[j];
      if |g| < Arity(kind) {
        GroupRecordsSpec(kind, gs, base);
        return [], Some(TooShort(kind));
      }
      GroupRecordsNext(kind, gs, j, base);
      GroupLine(kind, g, base);
      var line;
      if kind == Faces {
        line := "f " + NatToString(g[0] + base) + " " + NatToString(g[1] + base) + " " + NatToString(g[2] + base);
      } else {
        line := "l " + NatToString(g[0] + base) + " " + NatToString(g[1] + base);
      }
      lines := lines + [line];
      j := j + 1;
    }
    assert gs[..j] == gs;
    failure := None;
  }

  /** One more group long enough for its record adds its rendered record. */
  lemma {:induction false} GroupRecordsNext(kind: GroupKind, gs: seq<seq<nat>>, j: nat, base: nat)
    requires j < |gs| && GroupRecords(kind, gs[..j], base).Ok? && |gs[j]| >= Arity(kind)
    ensures GroupRecords(kind, gs[..j + 1], base).Ok?
    ensures RenderAll(GroupRecords(kind, gs[..j + 1], base).value)
      == RenderAll(GroupRecords(kind, gs[..j], base).value) + [Render(GroupRecord(kind, gs[j], base).value)]
  {
    assert gs[..j + 1][..j] == gs[..j];
    var recs := GroupRecords(kind, gs[..j], base).value;
    var rec := GroupRecord(kind, gs[j], base).value;
    RenderAppend(recs, [rec]);
    RenderOne(rec);
  }

  /** The text of a face or line record: the letter and the shifted indices. */
  lemma {:induction false} GroupLine(kind: GroupKind, g: seq<nat>, base: nat)
    requires |g| >= Arity(kind)
    ensures Render(GroupRecord(kind, g, base).value) ==
      if kind == Faces then "f " + NatToString(g[0] + base) + " " + NatToString(g[1] + base) + " " + NatToString(g[2] + base)
      else "l " + NatToString(g[0] + base) + " " + NatToString(g[1] + base)
  {
  }

  /** `convert_wrl_to_obj`: the lines written to the output stream, in order, and the
      failure that escaped, if any. */
  method ConvertWrlToObj(text: string) returns (written: seq<string>, failure: Option<Failure>)
    ensures Conversion(written, failure) == Convert(text)
  {
    written := [Banner];
    var parsed := Parse(text);
    if parsed.None? {
      return written, Some(SyntaxError);
    }
    var rest;
    rest, failure := EmitSeparators(parsed.value);
    written := written + rest;
  }

  /** The loop of tools_misc/wrl_to_obj.py:194-197: one `v` line per point. */
  method FormatPoints(points: seq<Point>) returns (lines: seq<string>)
    ensures lines == RenderAll(Vertices(points))
  {
    lines := [];
    var j := 0;
    while j < |points|
      invariant 0 <= j <= |points|
      invariant lines == RenderAll(Vertices(points[..j]))
    {
      var p := points[j];
      assert points[..j + 1] == points[..j] + [p];
      VertexLine(points[..j], p);
      lines := lines + ["v " + p.x + " " + p.y + " " + p.z];
      j := j + 1;
    }
    assert points[..j] == points;
  }

  /** The points of two runs of separators, written one after the other. */
  lemma {:induction false} VerticesAppend(a: seq<Point>, b: seq<Point>)
    ensures RenderAll(Vertices(a + b)) == RenderAll(Vertices(a)) + RenderAll(Vertices(b))
  {
    VerticesConcat(a, b);
    RenderAppend(Vertices(a), Vertices(b));
  }

  /** The lines an index block adds, as the converter formats them. */
  method FormatBlock(kind: GroupKind, block: Option<seq<seq<nat>>>, base: nat) returns (lines: seq<string>, failure: Option<Failure>)
    ensures failure.None? <==> BlockRecords(kind, block, base).Ok?
    ensures failure.None? ==> lines == RenderAll(BlockRecords(kind, block, base).value)
    ensures failure.Some? ==> failure.value == BlockRecords(kind, block, base).error
  {
    if block.Some? && block.value != [] {
      lines, failure := FormatGroups(kind, block.value, base);
    } else {
      lines, failure := [], None;
    }
  }

  /** The body of the loop of tools_misc/wrl_to_obj.py:182-197 for one separator whose
      first vertex is number `base`: its `v` lines, its held-back lines, and the failure
      it raises. */
  method EmitSeparator(sep: Separator, base: nat) returns (points: seq<string>, objects: seq<string>, failure: Option<Failure>)
    ensures failure == FailureOf(sep)
    ensures failure.None? ==> SeparatorObjects(sep, base).Ok?
    ensures failure.None? ==> points == RenderAll(Vertices(sep.coords.value))
    ensures failure.None? ==> objects == RenderAll(SeparatorObjects(sep, base).value)
  {
    SeparatorObjectsOk(sep, base);
    var title := InferErrorType(sep.binding, DiffuseColors(sep));
    if title.Err? {
      return [], [], Some(title.error);
    }
    var faceLines, e := FormatBlock(Faces, sep.indexedFaces, base);
    if e.Some? {
      return [], [], e;
    }
    var lineLines, e' := FormatBlock(Lines, sep.indexedLines, base);
    if e'.Some? {
      return [], [], e';
    }
    objects := ["o Error geometry: " + title.value] + faceLines + lineLines;
    if sep.coords.None? {
      return [], objects, Some(CoordsMissing);
    }
    SeparatorText(sep, base);
    points := FormatPoints(sep.coords.value);
    failure := None;
  }

  /** A separator that fails after a run without failure ends the run with its failure
      and writes nothing more. */
  lemma {:induction false} RunStops(doc: Document, i: nat)
    requires i < |doc| && Run(doc[..i]).failure.None? && !SeparatorOk(doc[i])
    ensures Run(doc).failure == FailureOf(doc[i])
    ensures Output(Run(doc)) == RenderAll(Vertices(Run(doc[..i]).vertices))
  {
    var before := Run(doc[..i]);
    RunLast(doc[..i + 1]);
    assert doc[..i + 1][..i] == doc[..i];
    StepFailure(before, doc[i]);
    RunAfterFailure(doc, i + 1);
    assert Run(doc).failure.Some?;
  }

  /** A separator that goes through after a run without failure adds its `v` lines to
      the written ones and its held-back lines to the buffer. */
  lemma {:induction false} RunAdvances(doc: Document, i: nat)
    requires i < |doc| && Run(doc[..i]).failure.None? && SeparatorOk(doc[i])
    ensures var before := Run(doc[..i]);
      var after := Run(doc[..i + 1]);
      && SeparatorObjects(doc[i], before.next).Ok?
      && after.failure.None?
      && after.next == before.next + |doc[i].coords.value|
      && RenderAll(Vertices(after.vertices)) == RenderAll(Vertices(before.vertices)) + RenderAll(Vertices(doc[i].coords.value))
      && RenderAll(after.objects) == RenderAll(before.objects) + RenderAll(SeparatorObjects(doc[i], before.next).value)
  {
    var before := Run(doc[..i]);
    RunLast(doc[..i + 1]);
    assert doc[..i + 1][..i] == doc[..i];
    StepOkShape(before, doc[i]);
    RenderAppend(before.objects, SeparatorObjects(doc[i], before.next).value);
    VerticesAppend(before.vertices, doc[i].coords.value);
  }

  /** The loop of tools_misc/wrl_to_obj.py:182-201 over the parsed separators: what it
      writes after the banner and the failure that stops it. */
  method EmitSeparators(doc: Document) returns (written: seq<string>, failure: Option<Failure>)
    ensures written == Output(Run(doc)) && failure == Run(doc).failure
  {
    written := [];
    var vertIndex: nat := 1;
    var objectData: seq<string> := [];
    var i := 0;
    while i < |doc|
      invariant 0 <= i <= |doc|
      invariant Run(doc[..i]).failure.None?
      invariant vertIndex == Run(doc[..i]).next
      invariant written == RenderAll(Vertices(Run(doc[..i]).vertices))
      invariant objectData == RenderAll(Run(doc[..i]).objects)
    {
      var points, objects, e := EmitSeparator(doc[i], vertIndex);
      if e.Some? {
        RunStops(doc, i);
        return written, e;
      }
      RunAdvances(doc, i);
      objectData := objectData + objects;
      written := written + points;
      vertIndex := vertIndex + |doc[i].coords.value|;
      i := i + 1;
    }
    assert doc[..i] == doc;
    written := WriteAll(written, objectData);
    return written, None;
  }

  /** The loop of tools_misc/wrl_to_obj.py:200-201: writes the buffered lines in order. */
  method WriteAll(written: seq<string>, buffer: seq<string>) returns (out: seq<string>)
    ensures out == written + buffer
  {
    out := written;
    var k := 0;
    while k < |buffer|
      invariant 0 <= k <= |buffer|
      invariant out == written + buffer[..k]
    {
      assert buffer[..k + 1] == buffer[..k] + [buffer[k]];
      out := out + [buffer[k]];
      k := k + 1;
    }
    assert buffer[..k] == buffer;
  }
}
