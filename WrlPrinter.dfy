/** A printer for the WRL subset and the proof that the parser reads back
    whatever it prints: the grammar of tools_misc/wrl_to_obj.py:15-93 is
    self-consistent, and its trailing commas never add a list element. The
    printer puts one space before every token, so its output is a single line.
    Every `Show` function takes the text that follows what it prints. */
module WrlPrinter {
  import opened Text
  import opened WrlAst
  import opened WrlParser

  /** One token preceded by a space. */
  function Tok(w: string): string {
    " " + w
  }

  function ShowPoint(p: Point, rest: string): string {
    Tok(p.x) + (Tok(p.y) + (Tok(p.z) + rest))
  }

  function ShowFloat(f: string, rest: string): string {
    Tok(f) + rest
  }

  /** Each index followed by a comma. */
  function ShowIndices(g: seq<nat>, rest: string): string {
    if g == [] then rest else Tok(NatToString(g[0])) + (Tok(",") + ShowIndices(g[1..], rest))
  }

  /** An index group: its indices, then the `-1` terminator. */
  function ShowGroup(g: seq<nat>, rest: string): string {
    ShowIndices(g, Tok("-1") + rest)
  }

  /** A comma-separated list, with a comma after the last element when `trailing`. */
  function ShowList<T>(show: (T, string) -> string, xs: seq<T>, trailing: bool, rest: string): string
    decreases |xs|
  {
    if xs == [] then rest
    else if |xs| == 1 then show(xs[0], if trailing then Tok(",") + rest else rest)
    else show(xs[0], Tok(",") + ShowList(show, xs[1..], trailing, rest))
  }

  function ShowCoords(c: Option<seq<Point>>, trailing: bool, rest: string): string {
    if c.None? then rest
    else Tok("Coordinate3") + (Tok("{") + (Tok("point") + (Tok("[")
         + ShowList(ShowPoint, c.value, trailing, Tok("]") + (Tok("}") + rest)))))
  }

  function BindingWord(b: Binding): string {
    if b == PerVertex then "PER_VERTEX" else "PER_FACE"
  }

  function ShowBinding(b: Option<Binding>, rest: string): string {
    if b.None? then rest
    else Tok("MaterialBinding") + (Tok("{") + (Tok("value") + (Tok(BindingWord(b.value)) + (Tok("}") + rest))))
  }

  function ShowMaterial(m: Option<Material>, trailing: bool, rest: string): string {
    if m.None? then rest
    else Tok("Material") + (Tok("{") + (Tok("diffuseColor") + (Tok("[")
         + ShowList(ShowPoint, m.value.diffuseColors, trailing, Tok("]")
         + (Tok("transparency[") + ShowList(ShowFloat, m.value.transparencies, trailing, Tok("]") + (Tok("}") + rest)))))))
  }

  function ShowIndexBlock(keyword: string, gs: Option<seq<seq<nat>>>, trailing: bool, rest: string): string {
    if gs.None? then rest
    else Tok(keyword) + (Tok("{") + (Tok("coordIndex") + (Tok("[")
         + ShowList(ShowGroup, gs.value, trailing, Tok("]") + (Tok("}") + rest)))))
  }

  /** The blocks a separator has, in the grammar's order. */
  function ShowBlocks(sep: Separator, trailing: bool, rest: string): string {
    ShowCoords(sep.coords, trailing,
      ShowBinding(sep.binding,
      ShowMaterial(sep.material, trailing,
      ShowIndexBlock("IndexedLineSet", sep.indexedLines, trailing,
      ShowIndexBlock("IndexedFaceSet", sep.indexedFaces, trailing, rest)))))
  }

  function ShowSeparator(sep: Separator, trailing: bool, rest: string): string {
    Tok("Separator") + (Tok("{") + ShowBlocks(sep, trailing, Tok("}") + rest))
  }

  function ShowSeparators(doc: Document, trailing: bool, rest: string): string {
    if doc == [] then rest else ShowSeparator(doc[0], trailing, ShowSeparators(doc[1..], trailing, rest))
  }

  /** The text of a document; `trailing` puts a comma after the last element of every non-empty list. */
  function Serialize(doc: Document, trailing: bool): string {
    Header + ShowSeparators(doc, trailing, "\n")
  }

  // ---------------------------------------------------------------- tokens

  /** Text whose first character is a space. */
  predicate Spaced(r: string) {
    r != [] && r[0] == ' '
  }

  /** `s` begins with the token `w` after one space. */
  predicate LeadsWith(s: string, w: string) {
    Tok(w) <= s
  }

  lemma {:induction false} SkipOneSpace(s: string)
    requires |s| >= 2 && s[0] == ' ' && !IsSpace(s[1])
    ensures SkipWs(s) == s[1..]
  {
  }

  lemma {:induction false} TokenTok(w: string, rest: string)
    requires w != [] && !IsSpace(w[0])
    ensures Token(Tok(w) + rest, w) == Some(rest)
  {
    var s := Tok(w) + rest;
    assert s[1..] == w + rest;
    SkipOneSpace(s);
    assert (w + rest)[|w|..] == rest;
  }

  /** A literal fails on text that leads with a token differing from it at position `k`. */
  lemma {:induction false} TokenMisses(s: string, lead: string, w: string, k: nat)
    requires LeadsWith(s, lead) && lead != [] && !IsSpace(lead[0])
    requires w != [] && k < |lead| && k < |w| && lead[k] != w[k]
    ensures Token(s, w) == None
  {
    assert s[1] == lead[0];
    SkipOneSpace(s);
    assert s[1..][k] == lead[k];
  }

  lemma {:induction false} FloatRoundTrip(f: string, rest: string)
    requires IsFloat(f) && (rest == [] || !IsDigit(rest[0]))
    ensures FloatTok(ShowFloat(f, rest)) == Some((f, rest))
  {
    var s := Tok(f) + rest;
    assert f[0] == '-' || IsDigit(f[0]);
    assert s[1..] == f + rest;
    SkipOneSpace(s);
    FloatMatchAppend(f, rest);
    assert (f + rest)[..|f|] == f && (f + rest)[|f|..] == rest;
  }

  lemma {:induction false} IndexRoundTrip(n: nat, rest: string)
    requires rest == [] || !IsDigit(rest[0])
    ensures IndexTok(Tok(NatToString(n)) + rest) == Some((n, rest))
  {
    var d := NatToString(n);
    var s := Tok(d) + rest;
    assert s[1..] == d + rest;
    SkipOneSpace(s);
    DigitRunAll(d);
    DigitRunAppend(d, rest);
    assert (d + rest)[..|d|] == d && (d + rest)[|d|..] == rest;
    NatToStringRoundTrip(n);
  }

  lemma {:induction false} PointRoundTrip(p: Point, rest: string)
    requires ValidPoint(p) && Spaced(rest)
    ensures PointP(ShowPoint(p, rest)) == Some((p, rest))
  {
    FloatRoundTrip(p.x, Tok(p.y) + (Tok(p.z) + rest));
    FloatRoundTrip(p.y, Tok(p.z) + rest);
    FloatRoundTrip(p.z, rest);
  }

  /** A token that starts with neither a digit nor a minus sign starts no number. */
  lemma {:induction false} NoNumberAt(w: string, rest: string)
    requires w != [] && !IsSpace(w[0]) && !IsDigit(w[0])
    ensures IndexTok(Tok(w) + rest) == None
    ensures w[0] != '-' ==> FloatTok(Tok(w) + rest) == None
  {
    var s := Tok(w) + rest;
    assert s[1] == w[0];
    SkipOneSpace(s);
    assert s[1..][0] == w[0];
  }

  // ---------------------------------------------------------------- lists

  /** One step of `{ X ',' }`: an element and its comma, then the rest of the repetition. */
  lemma {:induction false} CommaLoopStep<T>(p: Parser<T>, xs: seq<T>, s: string, tail: string, rest: string)
    requires Consumes(p) && xs != []
    requires p(s) == Some((xs[0], Tok(",") + tail))
    requires CommaLoop(p, tail) == (xs[1..], rest)
    ensures CommaLoop(p, s) == (xs, rest)
  {
    TokenTok(",", tail);
    CommaLoopUnfold(p, s, xs[0], Tok(",") + tail, tail);
    HeadTail(xs);
  }

  lemma HeadTail<T>(xs: seq<T>)
    requires xs != []
    ensures [xs[0]] + xs[1..] == xs
  {
  }

  /** `{ X ',' }` after an element and its comma: that element, then the rest of the repetition. */
  lemma CommaLoopUnfold<T>(p: Parser<T>, s: string, x: T, s1: string, s2: string)
    requires Consumes(p) && p(s) == Some((x, s1)) && Token(s1, ",") == Some(s2)
    ensures CommaLoop(p, s) == ([x] + CommaLoop(p, s2).0, CommaLoop(p, s2).1)
  {
  }

  /** `{ X ',' }` reads nothing where `X` fails. */
  lemma {:induction false} CommaLoopStop<T>(p: Parser<T>, s: string)
    requires Consumes(p) && p(s) == None
    ensures CommaLoop(p, s) == ([], s)
  {
  }

  /** Every element of `xs` reads back from its printed form, whatever spaced text follows. */
  ghost predicate ReadsBack<T>(p: Parser<T>, show: (T, string) -> string, xs: seq<T>) {
    forall x, r :: x in xs && Spaced(r) ==> p(show(x, r)) == Some((x, r))
  }

  lemma {:induction false} ReadsBackTail<T>(p: Parser<T>, show: (T, string) -> string, xs: seq<T>)
    requires xs != [] && ReadsBack(p, show, xs)
    ensures ReadsBack(p, show, xs[1..])
  {
    forall y, r | y in xs[1..] && Spaced(r) ensures p(show(y, r)) == Some((y, r)) {
      assert y in xs;
    }
  }

  /** Without a trailing comma the repetition stops before the last element,
      which the optional element after it then reads. */
  lemma {:induction false} CommaLoopNoTrailing<T>(p: Parser<T>, show: (T, string) -> string, xs: seq<T>, rest: string)
    requires Consumes(p) && xs != [] && ReadsBack(p, show, xs)
    requires LeadsWith(rest, "]")
    ensures CommaLoop(p, ShowList(show, xs, false, rest)) == (xs[..|xs| - 1], show(xs[|xs| - 1], rest))
    decreases |xs|
  {
    var x := xs[0];
    assert x in xs;
    if |xs| == 1 {
      assert p(show(x, rest)) == Some((x, rest));
      TokenMisses(rest, "]", ",", 0);
      CommaLoopNoComma(p, show(x, rest), x, rest);
    } else {
      var tail := ShowList(show, xs[1..], false, rest);
      var s := ShowList(show, xs, false, rest);
      assert s == show(x, Tok(",") + tail);
      assert p(s) == Some((x, Tok(",") + tail));
      ReadsBackTail(p, show, xs);
      CommaLoopNoTrailing(p, show, xs[1..], rest);
      InitOfTail(xs);
      CommaLoopStep(p, xs[..|xs| - 1], s, tail, show(xs[|xs| - 1], rest));
    }
  }

  /** `{ X ',' }` reads nothing when no comma follows the first element. */
  lemma CommaLoopNoComma<T>(p: Parser<T>, s: string, x: T, s1: string)
    requires Consumes(p) && p(s) == Some((x, s1)) && Token(s1, ",") == None
    ensures CommaLoop(p, s) == ([], s)
  {
  }

  lemma InitOfTail<T>(xs: seq<T>)
    requires |xs| >= 2
    ensures xs[..|xs| - 1] != [] && xs[..|xs| - 1][0] == xs[0]
    ensures xs[1..][..|xs[1..]| - 1] == xs[..|xs| - 1][1..]
    ensures xs[1..][|xs[1..]| - 1] == xs[|xs| - 1]
  {
  }

  /** With a trailing comma the repetition reads every element. */
  lemma {:induction false} CommaLoopTrailing<T>(p: Parser<T>, show: (T, string) -> string, xs: seq<T>, rest: string)
    requires Consumes(p) && xs != [] && ReadsBack(p, show, xs)
    requires p(rest) == None
    ensures CommaLoop(p, ShowList(show, xs, true, rest)) == (xs, rest)
    decreases |xs|
  {
    var x := xs[0];
    assert x in xs;
    var tail := if |xs| == 1 then rest else ShowList(show, xs[1..], true, rest);
    assert p(show(x, Tok(",") + tail)) == Some((x, Tok(",") + tail));
    var s := ShowList(show, xs, true, rest);
    assert s == show(x, Tok(",") + tail);
    if |xs| == 1 {
      CommaLoopStop(p, rest);
      assert xs[1..] == [];
    } else {
      ReadsBackTail(p, show, xs);
      CommaLoopTrailing(p, show, xs[1..], rest);
    }
    CommaLoopStep(p, xs, s, tail, rest);
  }

  /** `{ X ',' } [ X ]` reads back a printed list exactly, with or without the
      trailing comma, and stops at the closing bracket. */
  lemma {:induction false} CommaListRoundTrip<T>(p: Parser<T>, show: (T, string) -> string, xs: seq<T>, trailing: bool, rest: string)
    requires Consumes(p) && ReadsBack(p, show, xs)
    requires LeadsWith(rest, "]") && p(rest) == None
    ensures CommaList(p, ShowList(show, xs, trailing, rest)) == (xs, rest)
  {
    if xs == [] {
      CommaLoopStop(p, rest);
    } else if trailing {
      CommaLoopTrailing(p, show, xs, rest);
    } else {
      CommaLoopNoTrailing(p, show, xs, rest);
      var last := xs[|xs| - 1];
      assert last in xs;
      assert p(show(last, rest)) == Some((last, rest));
      InitLast(xs);
    }
  }

  lemma InitLast<T>(xs: seq<T>)
    requires xs != []
    ensures xs[..|xs| - 1] + [xs[|xs| - 1]] == xs
  {
  }

  lemma {:induction false} IndicesRoundTrip(g: seq<nat>, rest: string)
    requires Spaced(rest) && IndexTok(rest) == None
    ensures CommaLoop(IndexTok, ShowIndices(g, rest)) == (g, rest)
  {
    if g == [] {
      CommaLoopStop(IndexTok, rest);
    } else {
      var tail := ShowIndices(g[1..], rest);
      IndexRoundTrip(g[0], Tok(",") + tail);
      IndicesRoundTrip(g[1..], rest);
      CommaLoopStep(IndexTok, g, ShowIndices(g, rest), tail, rest);
    }
  }

  lemma {:induction false} IndexGroupOf(s: string, g: seq<nat>, s1: string, s2: string)
    requires g != [] && CommaLoop(IndexTok, s) == (g, s1) && Token(s1, "-1") == Some(s2)
    ensures IndexGroup(s) == Some((g, s2))
  {
  }

  /** An index group reads back as its indices; the `-1` is consumed, not stored. */
  lemma {:induction false} GroupRoundTrip(g: seq<nat>, rest: string)
    requires NonEmptyGroup(g)
    ensures IndexGroup(ShowGroup(g, rest)) == Some((g, rest))
  {
    NoNumberAt("-1", rest);
    IndicesRoundTrip(g, Tok("-1") + rest);
    TokenTok("-1", rest);
    IndexGroupOf(ShowGroup(g, rest), g, Tok("-1") + rest, rest);
  }

  /** A `-1` with no index before it is not a group: `{ index ',' }+` needs at least one. */
  lemma {:induction false} EmptyGroupRejected(rest: string)
    ensures IndexGroup(Tok("-1") + rest) == None
  {
    NoNumberAt("-1", rest);
    CommaLoopStop(IndexTok, Tok("-1") + rest);
  }

  lemma {:induction false} PointsReadBack(ps: seq<Point>)
    requires ValidPoints(ps)
    ensures ReadsBack(PointP, ShowPoint, ps)
  {
    forall x, r | x in ps && Spaced(r) ensures PointP(ShowPoint(x, r)) == Some((x, r)) {
      var k :| 0 <= k < |ps| && ps[k] == x;
      PointRoundTrip(x, r);
    }
  }

  lemma {:induction false} FloatsReadBack(fs: seq<string>)
    requires ValidFloats(fs)
    ensures ReadsBack(FloatTok, ShowFloat, fs)
  {
    forall x, r | x in fs && Spaced(r) ensures FloatTok(ShowFloat(x, r)) == Some((x, r)) {
      var k :| 0 <= k < |fs| && fs[k] == x;
      FloatRoundTrip(x, r);
    }
  }

  lemma {:induction false} GroupsReadBack(gs: seq<seq<nat>>)
    requires ValidGroups(gs)
    ensures ReadsBack(IndexGroup, ShowGroup, gs)
  {
    forall x, r | x in gs && Spaced(r) ensures IndexGroup(ShowGroup(x, r)) == Some((x, r)) {
      var k :| 0 <= k < |gs| && gs[k] == x;
      GroupRoundTrip(x, r);
    }
  }

  lemma {:induction false} PointsOf(s: string, ps: seq<Point>, r: string)
    requires CommaList(PointP, s) == (ps, r)
    ensures Points(s) == (ps, r)
  {
  }

  lemma {:induction false} FloatsOf(s: string, fs: seq<string>, r: string)
    requires CommaList(FloatTok, s) == (fs, r)
    ensures Floats(s) == (fs, r)
  {
  }

  lemma {:induction false} GroupsOf(s: string, gs: seq<seq<nat>>, r: string)
    requires CommaList(IndexGroup, s) == (gs, r)
    ensures IndexGroups(s) == (gs, r)
  {
  }

  /** A printed list of points, closed by `]`, reads back exactly. */
  lemma {:induction false} PointsRoundTrip(ps: seq<Point>, trailing: bool, rest: string)
    requires ValidPoints(ps)
    ensures Points(ShowList(ShowPoint, ps, trailing, Tok("]") + rest)) == (ps, Tok("]") + rest)
  {
    PointsReadBack(ps);
    NoNumberAt("]", rest);
    CommaListRoundTrip(PointP, ShowPoint, ps, trailing, Tok("]") + rest);
    PointsOf(ShowList(ShowPoint, ps, trailing, Tok("]") + rest), ps, Tok("]") + rest);
  }

  /** A printed list of float tokens, closed by `]`, reads back exactly. */
  lemma {:induction false} FloatsRoundTrip(fs: seq<string>, trailing: bool, rest: string)
    requires ValidFloats(fs)
    ensures Floats(ShowList(ShowFloat, fs, trailing, Tok("]") + rest)) == (fs, Tok("]") + rest)
  {
    FloatsReadBack(fs);
    NoNumberAt("]", rest);
    CommaListRoundTrip(FloatTok, ShowFloat, fs, trailing, Tok("]") + rest);
    FloatsOf(ShowList(ShowFloat, fs, trailing, Tok("]") + rest), fs, Tok("]") + rest);
  }

  /** A printed list of index groups, closed by `]`, reads back exactly. */
  lemma {:induction false} GroupsRoundTrip(gs: seq<seq<nat>>, trailing: bool, rest: string)
    requires ValidGroups(gs)
    ensures IndexGroups(ShowList(ShowGroup, gs, trailing, Tok("]") + rest)) == (gs, Tok("]") + rest)
  {
    GroupsReadBack(gs);
    NoNumberAt("]", rest);
    CommaLoopStop(IndexTok, Tok("]") + rest);
    CommaListRoundTrip(IndexGroup, ShowGroup, gs, trailing, Tok("]") + rest);
    GroupsOf(ShowList(ShowGroup, gs, trailing, Tok("]") + rest), gs, Tok("]") + rest);
  }

  // ---------------------------------------------------------------- blocks

  /** A keyword or punctuation literal of the grammar: non-empty, not starting with whitespace. */
  predicate Word(w: string) {
    w != [] && !IsSpace(w[0])
  }

  /** The literals of the grammar are words. Calling this before any chain keeps
      the solver from evaluating literals among many facts about tokens. */
  lemma {:induction false} GrammarWords()
    ensures Word("Separator") && Word("{") && Word("}") && Word("[") && Word("]")
    ensures Word("Coordinate3") && Word("point") && Word("MaterialBinding") && Word("value")
    ensures Word("Material") && Word("diffuseColor") && Word("transparency[")
    ensures Word("IndexedLineSet") && Word("IndexedFaceSet") && Word("coordIndex")
    ensures Word("PER_VERTEX") && Word("PER_FACE") && Word(",") && Word("-1") && Word("Material {")
  {
  }

  lemma SeparatorWords()
    ensures Word("Separator") && Word("{")
  {
  }

  lemma {:induction false} Chain2(w1: string, w2: string, rest: string)
    requires Word(w1) && Word(w2)
    ensures Token(Tok(w1) + (Tok(w2) + rest), w1) == Some(Tok(w2) + rest)
    ensures Token(Tok(w2) + rest, w2) == Some(rest)
  {
    TokenTok(w1, Tok(w2) + rest);
    TokenTok(w2, rest);
  }

  lemma {:induction false} Chain3(w1: string, w2: string, w3: string, rest: string)
    requires Word(w1) && Word(w2) && Word(w3)
    ensures Token(Tok(w1) + (Tok(w2) + (Tok(w3) + rest)), w1) == Some(Tok(w2) + (Tok(w3) + rest))
    ensures Token(Tok(w2) + (Tok(w3) + rest), w2) == Some(Tok(w3) + rest)
    ensures Token(Tok(w3) + rest, w3) == Some(rest)
  {
    TokenTok(w1, Tok(w2) + (Tok(w3) + rest));
    Chain2(w2, w3, rest);
  }

  lemma {:induction false} Chain4(w1: string, w2: string, w3: string, w4: string, rest: string)
    requires Word(w1) && Word(w2) && Word(w3) && Word(w4)
    ensures Token(Tok(w1) + (Tok(w2) + (Tok(w3) + (Tok(w4) + rest))), w1) == Some(Tok(w2) + (Tok(w3) + (Tok(w4) + rest)))
    ensures Token(Tok(w2) + (Tok(w3) + (Tok(w4) + rest)), w2) == Some(Tok(w3) + (Tok(w4) + rest))
    ensures Token(Tok(w3) + (Tok(w4) + rest), w3) == Some(Tok(w4) + rest)
    ensures Token(Tok(w4) + rest, w4) == Some(rest)
  {
    TokenTok(w1, Tok(w2) + (Tok(w3) + (Tok(w4) + rest)));
    Chain3(w2, w3, w4, rest);
  }

  lemma {:induction false} CoordinateBlockOf(s: string, ps: seq<Point>, s1: string, s2: string, s3: string, s4: string, s5: string, s6: string, s7: string)
    requires Token(s, "Coordinate3") == Some(s1) && Token(s1, "{") == Some(s2)
    requires Token(s2, "point") == Some(s3) && Token(s3, "[") == Some(s4)
    requires Points(s4) == (ps, s5) && Token(s5, "]") == Some(s6) && Token(s6, "}") == Some(s7)
    ensures CoordinateBlock(s) == Some((ps, s7))
  {
  }

  /** The frame of a `Coordinate3` block around any text the point list reads exactly. */
  lemma {:induction false} CoordinateFrame(s4: string, ps: seq<Point>, rest: string)
    requires Points(s4) == (ps, Tok("]") + (Tok("}") + rest))
    ensures CoordinateBlock(Tok("Coordinate3") + (Tok("{") + (Tok("point") + (Tok("[") + s4)))) == Some((ps, rest))
  {
    GrammarWords();
    Chain4("Coordinate3", "{", "point", "[", s4);
    Chain2("]", "}", rest);
    CoordinateBlockOf(Tok("Coordinate3") + (Tok("{") + (Tok("point") + (Tok("[") + s4))), ps,
      Tok("{") + (Tok("point") + (Tok("[") + s4)), Tok("point") + (Tok("[") + s4), Tok("[") + s4, s4,
      Tok("]") + (Tok("}") + rest), Tok("}") + rest, rest);
  }

  lemma {:induction false} CoordinateBlockRoundTrip(ps: seq<Point>, trailing: bool, rest: string)
    requires ValidPoints(ps)
    ensures CoordinateBlock(ShowCoords(Some(ps), trailing, rest)) == Some((ps, rest))
  {
    PointsRoundTrip(ps, trailing, Tok("}") + rest);
    CoordinateFrame(ShowList(ShowPoint, ps, trailing, Tok("]") + (Tok("}") + rest)), ps, rest);
  }

  lemma {:induction false} BindingTypeRoundTrip(b: Binding, rest: string)
    ensures BindingType(Tok(BindingWord(b)) + rest) == Some((b, rest))
  {
    if b == PerVertex {
      TokenTok("PER_VERTEX", rest);
    } else {
      TokenTok("PER_FACE", rest);
      TokenMisses(Tok("PER_FACE") + rest, "PER_FACE", "PER_VERTEX", 4);
    }
  }

  lemma {:induction false} BindingBlockOf(s: string, b: Binding, s1: string, s2: string, s3: string, s4: string, s5: string)
    requires Token(s, "MaterialBinding") == Some(s1) && Token(s1, "{") == Some(s2)
    requires Token(s2, "value") == Some(s3) && BindingType(s3) == Some((b, s4)) && Token(s4, "}") == Some(s5)
    ensures BindingBlock(s) == Some((b, s5))
  {
  }

  lemma {:induction false} BindingBlockRoundTrip(b: Binding, rest: string)
    ensures BindingBlock(ShowBinding(Some(b), rest)) == Some((b, rest))
  {
    GrammarWords();
    var s3 := Tok(BindingWord(b)) + (Tok("}") + rest);
    Chain3("MaterialBinding", "{", "value", s3);
    BindingTypeRoundTrip(b, Tok("}") + rest);
    TokenTok("}", rest);
    BindingBlockOf(ShowBinding(Some(b), rest), b, Tok("{") + (Tok("value") + s3), Tok("value") + s3, s3, Tok("}") + rest, rest);
  }

  lemma {:induction false} MaterialBlockOf(s: string, m: Material, s1: string, s2: string, s3: string, s4: string, s5: string,
                        s6: string, s7: string, s8: string, s9: string, s10: string)
    requires Token(s, "Material") == Some(s1) && Token(s1, "{") == Some(s2)
    requires Token(s2, "diffuseColor") == Some(s3) && Token(s3, "[") == Some(s4)
    requires Points(s4) == (m.diffuseColors, s5) && Token(s5, "]") == Some(s6)
    requires Token(s6, "transparency[") == Some(s7) && Floats(s7) == (m.transparencies, s8)
    requires Token(s8, "]") == Some(s9) && Token(s9, "}") == Some(s10)
    ensures MaterialBlock(s) == Some((m, s10))
  {
  }

  lemma {:induction false} MaterialBlockRoundTrip(m: Material, trailing: bool, rest: string)
    requires ValidMaterial(m)
    ensures MaterialBlock(ShowMaterial(Some(m), trailing, rest)) == Some((m, rest))
  {
    GrammarWords();
    var s7 := ShowList(ShowFloat, m.transparencies, trailing, Tok("]") + (Tok("}") + rest));
    var s4 := ShowList(ShowPoint, m.diffuseColors, trailing, Tok("]") + (Tok("transparency[") + s7));
    Chain4("Material", "{", "diffuseColor", "[", s4);
    PointsRoundTrip(m.diffuseColors, trailing, Tok("transparency[") + s7);
    Chain2("]", "transparency[", s7);
    FloatsRoundTrip(m.transparencies, trailing, Tok("}") + rest);
    Chain2("]", "}", rest);
    MaterialBlockOf(ShowMaterial(Some(m), trailing, rest), m,
      Tok("{") + (Tok("diffuseColor") + (Tok("[") + s4)), Tok("diffuseColor") + (Tok("[") + s4), Tok("[") + s4, s4,
      Tok("]") + (Tok("transparency[") + s7), Tok("transparency[") + s7, s7,
      Tok("]") + (Tok("}") + rest), Tok("}") + rest, rest);
  }

  lemma {:induction false} IndexBlockOf(s: string, keyword: string, gs: seq<seq<nat>>, s1: string, s2: string, s3: string, s4: string, s5: string, s6: string, s7: string)
    requires keyword != []
    requires Token(s, keyword) == Some(s1) && Token(s1, "{") == Some(s2)
    requires Token(s2, "coordIndex") == Some(s3) && Token(s3, "[") == Some(s4)
    requires IndexGroups(s4) == (gs, s5) && Token(s5, "]") == Some(s6) && Token(s6, "}") == Some(s7)
    ensures IndexBlock(s, keyword) == Some((gs, s7))
  {
  }

  lemma {:induction false} IndexBlockRoundTrip(keyword: string, gs: seq<seq<nat>>, trailing: bool, rest: string)
    requires Word(keyword) && ValidGroups(gs)
    ensures IndexBlock(ShowIndexBlock(keyword, Some(gs), trailing, rest), keyword) == Some((gs, rest))
  {
    GrammarWords();
    var s4 := ShowList(ShowGroup, gs, trailing, Tok("]") + (Tok("}") + rest));
    Chain4(keyword, "{", "coordIndex", "[", s4);
    GroupsRoundTrip(gs, trailing, Tok("}") + rest);
    Chain2("]", "}", rest);
    IndexBlockOf(ShowIndexBlock(keyword, Some(gs), trailing, rest), keyword, gs,
      Tok("{") + (Tok("coordIndex") + (Tok("[") + s4)), Tok("coordIndex") + (Tok("[") + s4), Tok("[") + s4, s4,
      Tok("]") + (Tok("}") + rest), Tok("}") + rest, rest);
  }

  // ---------------------------------------------------------------- optional blocks

  /** What may follow the `IndexedFaceSet` slot: the separator's closing brace. */
  predicate AfterFaceSet(s: string) {
    LeadsWith(s, "}")
  }

  /** What may follow the `IndexedLineSet` slot. */
  predicate AfterLineSet(s: string) {
    LeadsWith(s, "IndexedFaceSet") || AfterFaceSet(s)
  }

  /** What may follow the `Material` slot. */
  predicate AfterMaterial(s: string) {
    LeadsWith(s, "IndexedLineSet") || AfterLineSet(s)
  }

  /** What may follow the `MaterialBinding` slot. */
  predicate AfterBinding(s: string) {
    LeadsWith(s, "Material {") || AfterMaterial(s)
  }

  /** What may follow the `Coordinate3` slot. */
  predicate AfterCoords(s: string) {
    LeadsWith(s, "MaterialBinding") || AfterBinding(s)
  }

  lemma {:induction false} LeadsWithTok(w: string, rest: string)
    ensures LeadsWith(Tok(w) + rest, w)
  {
  }

  lemma {:induction false} LeadsWithMaterial(rest: string)
    ensures LeadsWith(Tok("Material") + (Tok("{") + rest), "Material {")
  {
    assert Tok("Material") + (Tok("{") + rest) == Tok("Material {") + rest;
  }

  lemma {:induction false} FacesLead(f: Option<seq<seq<nat>>>, trailing: bool, rest: string)
    requires f.None? ==> AfterFaceSet(rest)
    ensures AfterLineSet(ShowIndexBlock("IndexedFaceSet", f, trailing, rest))
  {
    if f.Some? {
      LeadsWithTok("IndexedFaceSet", Tok("{") + (Tok("coordIndex") + (Tok("[")
        + ShowList(ShowGroup, f.value, trailing, Tok("]") + (Tok("}") + rest)))));
    }
  }

  lemma {:induction false} LinesLead(l: Option<seq<seq<nat>>>, trailing: bool, rest: string)
    requires l.None? ==> AfterLineSet(rest)
    ensures AfterMaterial(ShowIndexBlock("IndexedLineSet", l, trailing, rest))
  {
    if l.Some? {
      LeadsWithTok("IndexedLineSet", Tok("{") + (Tok("coordIndex") + (Tok("[")
        + ShowList(ShowGroup, l.value, trailing, Tok("]") + (Tok("}") + rest)))));
    }
  }

  lemma {:induction false} MaterialLead(m: Option<Material>, trailing: bool, rest: string)
    requires m.None? ==> AfterMaterial(rest)
    ensures AfterBinding(ShowMaterial(m, trailing, rest))
  {
    if m.Some? {
      LeadsWithMaterial(Tok("diffuseColor") + (Tok("[")
         + ShowList(ShowPoint, m.value.diffuseColors, trailing, Tok("]")
         + (Tok("transparency[") + ShowList(ShowFloat, m.value.transparencies, trailing, Tok("]") + (Tok("}") + rest))))));
    }
  }

  lemma {:induction false} BindingLead(b: Option<Binding>, rest: string)
    requires b.None? ==> AfterBinding(rest)
    ensures AfterCoords(ShowBinding(b, rest))
  {
    if b.Some? {
      LeadsWithTok("MaterialBinding", Tok("{") + (Tok("value") + (Tok(BindingWord(b.value)) + (Tok("}") + rest))));
    }
  }

  lemma {:induction false} CoordsStage(c: Option<seq<Point>>, trailing: bool, rest: string)
    requires (c.Some? ==> ValidPoints(c.value)) && (c.None? ==> AfterCoords(rest))
    ensures Optional(CoordinateBlock(ShowCoords(c, trailing, rest)), ShowCoords(c, trailing, rest)) == (c, rest)
  {
    GrammarWords();
    if c.Some? {
      CoordinateBlockRoundTrip(c.value, trailing, rest);
    } else if LeadsWith(rest, "MaterialBinding") {
      TokenMisses(rest, "MaterialBinding", "Coordinate3", 0);
    } else if LeadsWith(rest, "Material {") {
      TokenMisses(rest, "Material {", "Coordinate3", 0);
    } else if LeadsWith(rest, "IndexedLineSet") {
      TokenMisses(rest, "IndexedLineSet", "Coordinate3", 0);
    } else if LeadsWith(rest, "IndexedFaceSet") {
      TokenMisses(rest, "IndexedFaceSet", "Coordinate3", 0);
    } else {
      TokenMisses(rest, "}", "Coordinate3", 0);
    }
  }

  lemma {:induction false} BindingStage(b: Option<Binding>, rest: string)
    requires b.None? ==> AfterBinding(rest)
    ensures Optional(BindingBlock(ShowBinding(b, rest)), ShowBinding(b, rest)) == (b, rest)
  {
    GrammarWords();
    if b.Some? {
      BindingBlockRoundTrip(b.value, rest);
    } else if LeadsWith(rest, "Material {") {
      TokenMisses(rest, "Material {", "MaterialBinding", 8);
    } else if LeadsWith(rest, "IndexedLineSet") {
      TokenMisses(rest, "IndexedLineSet", "MaterialBinding", 0);
    } else if LeadsWith(rest, "IndexedFaceSet") {
      TokenMisses(rest, "IndexedFaceSet", "MaterialBinding", 0);
    } else {
      TokenMisses(rest, "}", "MaterialBinding", 0);
    }
  }

  lemma {:induction false} MaterialStage(m: Option<Material>, trailing: bool, rest: string)
    requires (m.Some? ==> ValidMaterial(m.value)) && (m.None? ==> AfterMaterial(rest))
    ensures Optional(MaterialBlock(ShowMaterial(m, trailing, rest)), ShowMaterial(m, trailing, rest)) == (m, rest)
  {
    GrammarWords();
    if m.Some? {
      MaterialBlockRoundTrip(m.value, trailing, rest);
    } else if LeadsWith(rest, "IndexedLineSet") {
      TokenMisses(rest, "IndexedLineSet", "Material", 0);
    } else if LeadsWith(rest, "IndexedFaceSet") {
      TokenMisses(rest, "IndexedFaceSet", "Material", 0);
    } else {
      TokenMisses(rest, "}", "Material", 0);
    }
  }

  lemma {:induction false} LinesStage(l: Option<seq<seq<nat>>>, trailing: bool, rest: string)
    requires (l.Some? ==> ValidGroups(l.value)) && (l.None? ==> AfterLineSet(rest))
    ensures Optional(IndexBlock(ShowIndexBlock("IndexedLineSet", l, trailing, rest), "IndexedLineSet"),
                     ShowIndexBlock("IndexedLineSet", l, trailing, rest)) == (l, rest)
  {
    GrammarWords();
    if l.Some? {
      IndexBlockRoundTrip("IndexedLineSet", l.value, trailing, rest);
    } else if LeadsWith(rest, "IndexedFaceSet") {
      TokenMisses(rest, "IndexedFaceSet", "IndexedLineSet", 7);
    } else {
      TokenMisses(rest, "}", "IndexedLineSet", 0);
    }
  }

  lemma {:induction false} FacesStage(f: Option<seq<seq<nat>>>, trailing: bool, rest: string)
    requires (f.Some? ==> ValidGroups(f.value)) && (f.None? ==> AfterFaceSet(rest))
    ensures Optional(IndexBlock(ShowIndexBlock("IndexedFaceSet", f, trailing, rest), "IndexedFaceSet"),
                     ShowIndexBlock("IndexedFaceSet", f, trailing, rest)) == (f, rest)
  {
    GrammarWords();
    if f.Some? {
      IndexBlockRoundTrip("IndexedFaceSet", f.value, trailing, rest);
    } else {
      TokenMisses(rest, "}", "IndexedFaceSet", 0);
    }
  }

  // ---------------------------------------------------------------- documents

  lemma {:induction false} SeparatorOf(s: string, sep: Separator, s1: string, s2: string, s3: string, s4: string,
                    s5: string, s6: string, s7: string, s8: string)
    requires Token(s, "Separator") == Some(s1) && Token(s1, "{") == Some(s2)
    requires Optional(CoordinateBlock(s2), s2) == (sep.coords, s3)
    requires Optional(BindingBlock(s3), s3) == (sep.binding, s4)
    requires Optional(MaterialBlock(s4), s4) == (sep.material, s5)
    requires Optional(IndexBlock(s5, "IndexedLineSet"), s5) == (sep.indexedLines, s6)
    requires Optional(IndexBlock(s6, "IndexedFaceSet"), s6) == (sep.indexedFaces, s7)
    requires Token(s7, "}") == Some(s8)
    ensures SeparatorP(s) == Some((sep, s8))
  {
  }

  /** A printed separator reads back as itself, whichever of its blocks are present. */
  lemma {:induction false} SeparatorRoundTrip(sep: Separator, trailing: bool, rest: string)
    requires ValidSeparator(sep)
    ensures SeparatorP(ShowSeparator(sep, trailing, rest)) == Some((sep, rest))
  {
    GrammarWords();
    var r5 := Tok("}") + rest;
    var r4 := ShowIndexBlock("IndexedFaceSet", sep.indexedFaces, trailing, r5);
    var r3 := ShowIndexBlock("IndexedLineSet", sep.indexedLines, trailing, r4);
    var r2 := ShowMaterial(sep.material, trailing, r3);
    var r1 := ShowBinding(sep.binding, r2);
    var r0 := ShowCoords(sep.coords, trailing, r1);
    LeadsWithTok("}", rest);
    FacesLead(sep.indexedFaces, trailing, r5);
    LinesLead(sep.indexedLines, trailing, r4);
    MaterialLead(sep.material, trailing, r3);
    BindingLead(sep.binding, r2);
    CoordsStage(sep.coords, trailing, r1);
    BindingStage(sep.binding, r2);
    MaterialStage(sep.material, trailing, r3);
    LinesStage(sep.indexedLines, trailing, r4);
    FacesStage(sep.indexedFaces, trailing, r5);
    Chain2("Separator", "{", r0);
    TokenTok("}", rest);
    SeparatorOf(ShowSeparator(sep, trailing, rest), sep, Tok("{") + r0, r0, r1, r2, r3, r4, r5, rest);
  }

  lemma SeparatorsOf(s: string, doc: Document, s1: string, s2: string)
    requires doc != [] && SeparatorP(s) == Some((doc[0], s1)) && Separators(s1) == (doc[1..], s2)
    ensures Separators(s) == (doc, s2)
  {
    assert [doc[0]] + doc[1..] == doc;
  }

  lemma {:induction false} SeparatorsStop(s: string)
    requires SeparatorP(s) == None
    ensures Separators(s) == ([], s)
  {
  }

  lemma {:induction false} WellFormedTail(doc: Document)
    requires doc != [] && WellFormed(doc)
    ensures ValidSeparator(doc[0]) && WellFormed(doc[1..])
  {
    forall k | 0 <= k < |doc[1..]| ensures ValidSeparator(doc[1..][k]) {
      assert doc[1..][k] == doc[k + 1];
    }
  }

  lemma {:induction false} SeparatorsRoundTrip(doc: Document, trailing: bool, rest: string)
    requires WellFormed(doc) && SeparatorP(rest) == None
    ensures Separators(ShowSeparators(doc, trailing, rest)) == (doc, rest)
  {
    if doc == [] {
      SeparatorsStop(rest);
    } else {
      var tail := ShowSeparators(doc[1..], trailing, rest);
      WellFormedTail(doc);
      SeparatorRoundTrip(doc[0], trailing, tail);
      SeparatorsRoundTrip(doc[1..], trailing, rest);
      SeparatorsOf(ShowSeparators(doc, trailing, rest), doc, tail, rest);
    }
  }

  /** The final line break is whitespace only: nothing starts there. */
  lemma {:induction false} NothingAtNewline()
    ensures SkipWs("\n") == []
    ensures SeparatorP("\n") == None
  {
    assert SkipWs("\n") == SkipWs("\n"[1..]);
  }

  lemma {:induction false} HeaderToken(body: string)
    ensures Token(Header + body, Header) == Some(body)
  {
    var s := Header + body;
    assert s[0] == '#';
    assert SkipWs(s) == s;
    assert s[|Header|..] == body;
  }

  lemma {:induction false} ParseOf(text: string, s1: string, doc: Document, s2: string)
    requires Token(text, Header) == Some(s1) && Separators(s1) == (doc, s2) && AtEnd(s2)
    ensures Parse(text) == Some(doc)
  {
  }

  /** The parser reads back every well-formed document the printer writes, with or
      without trailing commas: parsing is a left inverse of printing. */
  lemma {:induction false} ParsePrintRoundTrip(doc: Document, trailing: bool)
    requires WellFormed(doc)
    ensures Parse(Serialize(doc, trailing)) == Some(doc)
  {
    NothingAtNewline();
    SeparatorsRoundTrip(doc, trailing, "\n");
    HeaderToken(ShowSeparators(doc, trailing, "\n"));
    ParseOf(Serialize(doc, trailing), ShowSeparators(doc, trailing, "\n"), doc, "\n");
  }

  /** Text after the last separator other than whitespace is a syntax error (the `$` of
      `start`): printed separators followed by any text that starts no separator and is
      not all whitespace do not parse. */
  lemma {:induction false} TrailingTextRejected(doc: Document, trailing: bool, t: string)
    requires WellFormed(doc) && SeparatorP(t) == None && !AtEnd(t)
    ensures Parse(Header + ShowSeparators(doc, trailing, t)) == None
  {
    SeparatorsRoundTrip(doc, trailing, t);
    HeaderToken(ShowSeparators(doc, trailing, t));
  }

  /** For instance, a stray closing brace after the last separator. */
  lemma StrayBraceRejected(doc: Document, trailing: bool)
    requires WellFormed(doc)
    ensures Parse(Header + ShowSeparators(doc, trailing, Tok("}"))) == None
  {
    GrammarWords();
    TokenMisses(Tok("}"), "}", "Separator", 0);
    SkipOneSpace(Tok("}"));
    TrailingTextRejected(doc, trailing, Tok("}"));
  }

  lemma {:induction false} SeparatorUnclosed(s: string, s1: string, s2: string, s3: string, s4: string,
                    s5: string, s6: string, s7: string)
    requires Token(s, "Separator") == Some(s1) && Token(s1, "{") == Some(s2)
    requires Optional(CoordinateBlock(s2), s2).1 == s3
    requires Optional(BindingBlock(s3), s3).1 == s4
    requires Optional(MaterialBlock(s4), s4).1 == s5
    requires Optional(IndexBlock(s5, "IndexedLineSet"), s5).1 == s6
    requires Optional(IndexBlock(s6, "IndexedFaceSet"), s6).1 == s7
    requires Token(s7, "}") == None
    ensures SeparatorP(s) == None
  {
  }

  /** `s` begins with the keyword of a block whose slot comes before slot `k`; the slots
      are numbered 1 `Coordinate3`, 2 `MaterialBinding`, 3 `Material`, 4 `IndexedLineSet`
      and 5 `IndexedFaceSet`. */
  predicate Behind(s: string, k: nat) {
    (k > 1 && LeadsWith(s, "Coordinate3")) || (k > 2 && LeadsWith(s, "MaterialBinding"))
    || (k > 3 && LeadsWith(s, "Material")) || (k > 4 && LeadsWith(s, "IndexedLineSet"))
    || (k > 5 && LeadsWith(s, "IndexedFaceSet"))
  }

  /** The slot of the last block a separator has, 0 when it has none. */
  function LastSlot(sep: Separator): (k: nat)
    ensures k <= 5
    ensures k == 0 <==> sep.coords.None? && sep.binding.None? && sep.material.None?
                        && sep.indexedLines.None? && sep.indexedFaces.None?
  {
    if sep.indexedFaces.Some? then 5
    else if sep.indexedLines.Some? then 4
    else if sep.material.Some? then 3
    else if sep.binding.Some? then 2
    else if sep.coords.Some? then 1
    else 0
  }

  lemma {:induction false} BindingMisses(s: string)
    requires Behind(s, 2)
    ensures BindingBlock(s) == None
  {
    GrammarWords();
    TokenMisses(s, "Coordinate3", "MaterialBinding", 0);
  }

  /** `Material` is a prefix of `MaterialBinding`, so the keyword matches and the `{` after it fails. */
  lemma {:induction false} BindingIsNoMaterial(s: string)
    requires LeadsWith(s, "MaterialBinding")
    ensures MaterialBlock(s) == None
  {
    GrammarWords();
    var x := s[|Tok("MaterialBinding")|..];
    var b := "Binding" + x;
    assert s == Tok("Material") + b;
    TokenTok("Material", b);
    assert b[0] == 'B';
    SkipWsNone(b);
  }

  lemma {:induction false} MaterialMisses(s: string)
    requires Behind(s, 3)
    ensures MaterialBlock(s) == None
  {
    GrammarWords();
    if LeadsWith(s, "Coordinate3") {
      TokenMisses(s, "Coordinate3", "Material", 0);
    } else {
      BindingIsNoMaterial(s);
    }
  }

  lemma {:induction false} LinesMisses(s: string)
    requires Behind(s, 4)
    ensures IndexBlock(s, "IndexedLineSet") == None
  {
    GrammarWords();
    if LeadsWith(s, "Coordinate3") {
      TokenMisses(s, "Coordinate3", "IndexedLineSet", 0);
    } else if LeadsWith(s, "MaterialBinding") {
      TokenMisses(s, "MaterialBinding", "IndexedLineSet", 0);
    } else {
      TokenMisses(s, "Material", "IndexedLineSet", 0);
    }
  }

  lemma {:induction false} FacesMisses(s: string)
    requires Behind(s, 5)
    ensures IndexBlock(s, "IndexedFaceSet") == None
  {
    GrammarWords();
    if LeadsWith(s, "Coordinate3") {
      TokenMisses(s, "Coordinate3", "IndexedFaceSet", 0);
    } else if LeadsWith(s, "MaterialBinding") {
      TokenMisses(s, "MaterialBinding", "IndexedFaceSet", 0);
    } else if LeadsWith(s, "Material") {
      TokenMisses(s, "Material", "IndexedFaceSet", 0);
    } else {
      TokenMisses(s, "IndexedLineSet", "IndexedFaceSet", 7);
    }
  }

  lemma {:induction false} CloseMisses(s: string)
    requires Behind(s, 6)
    ensures Token(s, "}") == None
  {
    GrammarWords();
    if LeadsWith(s, "Coordinate3") {
      TokenMisses(s, "Coordinate3", "}", 0);
    } else if LeadsWith(s, "MaterialBinding") {
      TokenMisses(s, "MaterialBinding", "}", 0);
    } else if LeadsWith(s, "Material") {
      TokenMisses(s, "Material", "}", 0);
    } else if LeadsWith(s, "IndexedLineSet") {
      TokenMisses(s, "IndexedLineSet", "}", 0);
    } else {
      TokenMisses(s, "IndexedFaceSet", "}", 0);
    }
  }

  /** The blocks of a separator are accepted only in the grammar's order, each at most
      once: after the last block a separator has, a block whose slot is not later than
      that one's is a syntax error, whatever follows it. */
  lemma {:induction false} BlocksOutOfOrderRejected(sep: Separator, trailing: bool, t: string)
    requires ValidSeparator(sep) && Behind(t, LastSlot(sep) + 1)
    ensures SeparatorP(Tok("Separator") + (Tok("{") + ShowBlocks(sep, trailing, t))) == None
  {
    var k := LastSlot(sep);
    if k == 5 {
      RejectedAfterFaces(sep, trailing, t);
    } else if k == 4 {
      RejectedAfterLines(sep, trailing, t);
    } else if k == 3 {
      RejectedAfterMaterial(sep, trailing, t);
    } else if k == 2 {
      RejectedAfterBinding(sep, trailing, t);
    } else {
      RejectedAfterCoords(sep, trailing, t);
    }
  }

  lemma {:induction false} RejectedAfterFaces(sep: Separator, trailing: bool, t: string)
    requires ValidSeparator(sep) && sep.indexedFaces.Some? && Behind(t, 6)
    ensures SeparatorP(Tok("Separator") + (Tok("{") + ShowBlocks(sep, trailing, t))) == None
  {
    SeparatorWords();
    var r4 := ShowIndexBlock("IndexedFaceSet", sep.indexedFaces, trailing, t);
    var r3 := ShowIndexBlock("IndexedLineSet", sep.indexedLines, trailing, r4);
    var r2 := ShowMaterial(sep.material, trailing, r3);
    var r1 := ShowBinding(sep.binding, r2);
    var r0 := ShowCoords(sep.coords, trailing, r1);
    FacesLead(sep.indexedFaces, trailing, t);
    LinesLead(sep.indexedLines, trailing, r4);
    MaterialLead(sep.material, trailing, r3);
    BindingLead(sep.binding, r2);
    CoordsStage(sep.coords, trailing, r1);
    BindingStage(sep.binding, r2);
    MaterialStage(sep.material, trailing, r3);
    LinesStage(sep.indexedLines, trailing, r4);
    FacesStage(sep.indexedFaces, trailing, t);
    CloseMisses(t);
    Chain2("Separator", "{", r0);
    SeparatorUnclosed(Tok("Separator") + (Tok("{") + r0), Tok("{") + r0, r0, r1, r2, r3, r4, t);
  }

  lemma {:induction false} RejectedAfterLines(sep: Separator, trailing: bool, t: string)
    requires ValidSeparator(sep) && sep.indexedFaces.None? && sep.indexedLines.Some? && Behind(t, 5)
    ensures SeparatorP(Tok("Separator") + (Tok("{") + ShowBlocks(sep, trailing, t))) == None
  {
    SeparatorWords();
    var r3 := ShowIndexBlock("IndexedLineSet", sep.indexedLines, trailing, t);
    var r2 := ShowMaterial(sep.material, trailing, r3);
    var r1 := ShowBinding(sep.binding, r2);
    var r0 := ShowCoords(sep.coords, trailing, r1);
    LinesLead(sep.indexedLines, trailing, t);
    MaterialLead(sep.material, trailing, r3);
    BindingLead(sep.binding, r2);
    CoordsStage(sep.coords, trailing, r1);
    BindingStage(sep.binding, r2);
    MaterialStage(sep.material, trailing, r3);
    LinesStage(sep.indexedLines, trailing, t);
    FacesMisses(t);
    CloseMisses(t);
    Chain2("Separator", "{", r0);
    SeparatorUnclosed(Tok("Separator") + (Tok("{") + r0), Tok("{") + r0, r0, r1, r2, r3, t, t);
  }

  lemma {:induction false} RejectedAfterMaterial(sep: Separator, trailing: bool, t: string)
    requires ValidSeparator(sep) && sep.indexedFaces.None? && sep.indexedLines.None?
    requires sep.material.Some? && Behind(t, 4)
    ensures SeparatorP(Tok("Separator") + (Tok("{") + ShowBlocks(sep, trailing, t))) == None
  {
    SeparatorWords();
    var r2 := ShowMaterial(sep.material, trailing, t);
    var r1 := ShowBinding(sep.binding, r2);
    var r0 := ShowCoords(sep.coords, trailing, r1);
    MaterialLead(sep.material, trailing, t);
    BindingLead(sep.binding, r2);
    CoordsStage(sep.coords, trailing, r1);
    BindingStage(sep.binding, r2);
    MaterialStage(sep.material, trailing, t);
    LinesMisses(t);
    FacesMisses(t);
    CloseMisses(t);
    Chain2("Separator", "{", r0);
    SeparatorUnclosed(Tok("Separator") + (Tok("{") + r0), Tok("{") + r0, r0, r1, r2, t, t, t);
  }

  lemma {:induction false} RejectedAfterBinding(sep: Separator, trailing: bool, t: string)
    requires ValidSeparator(sep) && sep.indexedFaces.None? && sep.indexedLines.None?
    requires sep.material.None? && sep.binding.Some? && Behind(t, 3)
    ensures SeparatorP(Tok("Separator") + (Tok("{") + ShowBlocks(sep, trailing, t))) == None
  {
    SeparatorWords();
    var r1 := ShowBinding(sep.binding, t);
    var r0 := ShowCoords(sep.coords, trailing, r1);
    BindingLead(sep.binding, t);
    CoordsStage(sep.coords, trailing, r1);
    BindingStage(sep.binding, t);
    MaterialMisses(t);
    LinesMisses(t);
    FacesMisses(t);
    CloseMisses(t);
    Chain2("Separator", "{", r0);
    SeparatorUnclosed(Tok("Separator") + (Tok("{") + r0), Tok("{") + r0, r0, r1, t, t, t, t);
  }

  lemma {:induction false} RejectedAfterCoords(sep: Separator, trailing: bool, t: string)
    requires ValidSeparator(sep) && sep.indexedFaces.None? && sep.indexedLines.None?
    requires sep.material.None? && sep.binding.None? && sep.coords.Some? && Behind(t, 2)
    ensures SeparatorP(Tok("Separator") + (Tok("{") + ShowBlocks(sep, trailing, t))) == None
  {
    SeparatorWords();
    var r0 := ShowCoords(sep.coords, trailing, t);
    CoordsStage(sep.coords, trailing, t);
    BindingMisses(t);
    MaterialMisses(t);
    LinesMisses(t);
    FacesMisses(t);
    CloseMisses(t);
    Chain2("Separator", "{", r0);
    SeparatorUnclosed(Tok("Separator") + (Tok("{") + r0), Tok("{") + r0, r0, t, t, t, t, t);
  }

  /** example: a `Coordinate3` block written after a `Material` block is a syntax error. */
  lemma {:induction false} CoordsAfterMaterialRejected(m: Material, ps: seq<Point>, trailing: bool, rest: string)
    requires ValidMaterial(m)
    ensures SeparatorP(Tok("Separator") + (Tok("{")
      + ShowMaterial(Some(m), trailing, ShowCoords(Some(ps), trailing, Tok("}") + rest)))) == None
  {
    var t := ShowCoords(Some(ps), trailing, Tok("}") + rest);
    LeadsWithTok("Coordinate3", Tok("{") + (Tok("point") + (Tok("[")
      + ShowList(ShowPoint, ps, trailing, Tok("]") + (Tok("}") + (Tok("}") + rest))))));
    BlocksOutOfOrderRejected(Separator(None, None, Some(m), None, None), trailing, t);
  }

  lemma {:induction false} MaterialBlockStops(s: string, s1: string, s2: string, s3: string, s4: string, s5: string, s6: string)
    requires Token(s, "Material") == Some(s1) && Token(s1, "{") == Some(s2)
    requires Token(s2, "diffuseColor") == Some(s3) && Token(s3, "[") == Some(s4)
    requires Points(s4).1 == s5 && Token(s5, "]") == Some(s6)
    requires Token(s6, "transparency[") == None
    ensures MaterialBlock(s) == None
  {
  }

  /** A `Material` block needs its `transparency[` list after the colours: a block that
      closes right after `diffuseColor [...]` is not read. */
  lemma {:induction false} MaterialWithoutTransparencyRejected(colors: seq<Point>, trailing: bool, rest: string)
    requires ValidPoints(colors)
    ensures MaterialBlock(Tok("Material") + (Tok("{") + (Tok("diffuseColor") + (Tok("[")
      + ShowList(ShowPoint, colors, trailing, Tok("]") + (Tok("}") + rest)))))) == None
  {
    GrammarWords();
    var s4 := ShowList(ShowPoint, colors, trailing, Tok("]") + (Tok("}") + rest));
    Chain4("Material", "{", "diffuseColor", "[", s4);
    PointsRoundTrip(colors, trailing, Tok("}") + rest);
    Chain2("]", "}", rest);
    LeadsWithTok("}", rest);
    TokenMisses(Tok("}") + rest, "}", "transparency[", 0);
    MaterialBlockStops(Tok("Material") + (Tok("{") + (Tok("diffuseColor") + (Tok("[") + s4))),
      Tok("{") + (Tok("diffuseColor") + (Tok("[") + s4)), Tok("diffuseColor") + (Tok("[") + s4), Tok("[") + s4, s4,
      Tok("]") + (Tok("}") + rest), Tok("}") + rest);
  }
}
