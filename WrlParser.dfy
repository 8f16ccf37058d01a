/** The WRL grammar of tools_misc/wrl_to_obj.py:15-93, written out as a
    recursive-descent PEG parser over the remaining input. Every parser takes the
    text still to be read and, on success, returns what it recognised together
    with the text left after it. As in the grammar's parser generator, a run of
    whitespace is skipped before every literal and every token pattern, a failed
    optional block or repetition step gives back everything it had read, and
    no step ever backtracks into a repetition that has finished. */
module WrlParser {
  import opened Text
  import opened WrlAst

  type Parser<T> = string -> Option<(T, string)>

  /** A parser that leaves strictly less input whenever it succeeds. */
  ghost predicate Consumes<T>(p: Parser<T>) {
    forall s :: p(s).Some? ==> |p(s).value.1| < |s|
  }

  /** A literal such as `'Separator'` or `'transparency['`. */
  function Token(s: string, w: string): (r: Option<string>)
    requires w != []
    ensures r.Some? <==> w <= SkipWs(s)
    ensures r.Some? ==> SkipWs(s) == w + r.value && |r.value| < |s|
  {
    var t := SkipWs(s);
    if w <= t then
      assert t == w + t[|w|..];
      Some(t[|w|..])
    else None
  }

  /** `$`: only whitespace is left. */
  predicate AtEnd(s: string) {
    SkipWs(s) == []
  }

  // ---------------------------------------------------------------- tokens

  /** Length of the match of `-?\d+\.\d+` at the start of `t`, 0 when it does not match.
      Digits never match `-` or `.`, so the greedy runs are the only possible match. */
  function FloatMatch(t: string): (n: nat)
    ensures n <= |t|
  {
    var sign := if t != [] && t[0] == '-' then 1 else 0;
    var a := DigitRun(t[sign..]);
    if a == 0 || sign + a >= |t| || t[sign + a] != '.' then 0
    else
      var b := DigitRun(t[sign + a + 1..]);
      if b == 0 then 0 else sign + a + 1 + b
  }

  /** `f` is exactly one float token. */
  predicate IsFloat(f: string) {
    f != [] && FloatMatch(f) == |f|
  }

  /** The regular expression's own reading of a float: an optional minus sign,
      digits, a point and digits, with at least one digit on each side. */
  ghost predicate FloatShape(f: string) {
    var u := if f != [] && f[0] == '-' then f[1..] else f;
    exists k :: 0 < k < |u| - 1 && u[k] == '.' && AllDigits(u[..k]) && AllDigits(u[k + 1..])
  }

  lemma {:induction false} DigitRunAll(s: string)
    requires AllDigits(s)
    ensures DigitRun(s) == |s|
  {
    if s != [] {
      DigitRunAll(s[1..]);
    }
  }

  lemma {:induction false} DigitRunStops(s: string, k: nat)
    requires k < |s| && AllDigits(s[..k]) && !IsDigit(s[k])
    ensures DigitRun(s) == k
  {
    assert s == s[..k] + s[k..];
    DigitRunAll(s[..k]);
    DigitRunAppend(s[..k], s[k..]);
  }

  /** The scanner accepts exactly the strings the float pattern describes. */
  lemma FloatShapeIff(f: string)
    ensures IsFloat(f) <==> FloatShape(f)
  {
    if IsFloat(f) {
      FloatHasShape(f);
    }
    if FloatShape(f) {
      ShapeIsFloat(f);
    }
  }

  lemma {:induction false} FloatHasShape(f: string)
    requires IsFloat(f)
    ensures FloatShape(f)
  {
    var sign := if f[0] == '-' then 1 else 0;
    var u := if f[0] == '-' then f[1..] else f;
    assert u == f[sign..];
    var a := DigitRun(u);
    var b := DigitRun(f[sign + a + 1..]);
    assert u[a] == '.';
    assert u[a + 1..] == f[sign + a + 1..];
    assert b == |u| - a - 1;
    assert u[a + 1..][..b] == u[a + 1..];
    assert 0 < a < |u| - 1 && u[a] == '.' && AllDigits(u[..a]) && AllDigits(u[a + 1..]);
  }

  lemma {:induction false} ShapeIsFloat(f: string)
    requires FloatShape(f)
    ensures IsFloat(f)
  {
    var sign := if f != [] && f[0] == '-' then 1 else 0;
    var u := if f != [] && f[0] == '-' then f[1..] else f;
    assert u == f[sign..];
    var k :| 0 < k < |u| - 1 && u[k] == '.' && AllDigits(u[..k]) && AllDigits(u[k + 1..]);
    DigitRunStops(u, k);
    assert f[sign + k] == '.';
    assert f[sign + k + 1..] == u[k + 1..];
    DigitRunAll(u[k + 1..]);
    assert FloatMatch(f) == sign + k + 1 + (|u| - k - 1);
  }

  lemma {:induction false} DropAppend(f: string, rest: string, i: nat)
    requires i <= |f|
    ensures (f + rest)[i..] == f[i..] + rest
  {
  }

  /** A float token followed by text that does not continue it is matched in full. */
  lemma {:induction false} FloatMatchAppend(f: string, rest: string)
    requires IsFloat(f)
    requires rest == [] || !IsDigit(rest[0])
    ensures FloatMatch(f + rest) == |f|
  {
    var t := f + rest;
    var sign := if f[0] == '-' then 1 else 0;
    var a := DigitRun(f[sign..]);
    assert sign + a < |f| && f[sign + a] == '.';
    DropAppend(f, rest, sign);
    DigitRunAppend(f[sign..], rest);
    var b := DigitRun(f[sign + a + 1..]);
    assert sign + a + 1 + b == |f|;
    DropAppend(f, rest, sign + a + 1);
    DigitRunAppend(f[sign + a + 1..], rest);
  }

  /** The matched prefix of a float match is itself a whole float token. */
  lemma {:induction false} FloatMatchPrefix(t: string)
    requires FloatMatch(t) > 0
    ensures IsFloat(t[..FloatMatch(t)])
  {
    var n := FloatMatch(t);
    var f := t[..n];
    var sign := if t[0] == '-' then 1 else 0;
    var u := t[sign..];
    var a := DigitRun(u);
    var v := t[sign + a + 1..];
    var b := DigitRun(v);
    assert n == sign + a + 1 + b;
    var uf := f[sign..];
    SliceOfPrefix(t, sign, n);
    assert uf[..a] == u[..a] && uf[a] == '.';
    DigitRunStops(uf, a);
    var vf := f[sign + a + 1..];
    SliceOfPrefix(t, sign + a + 1, n);
    DigitRunAll(vf);
    FloatMatchWhole(f, sign, a, b);
  }

  lemma SliceOfPrefix(t: string, i: nat, j: nat)
    requires i <= j <= |t|
    ensures t[..j][i..] == t[i..][..j - i]
  {
  }

  /** A text that is a sign, a digit run, a point and a digit run up to its end is matched whole. */
  lemma FloatMatchWhole(f: string, sign: nat, a: nat, b: nat)
    requires |f| == sign + a + 1 + b && a > 0 && b > 0
    requires sign == if f[0] == '-' then 1 else 0
    requires DigitRun(f[sign..]) == a && f[sign + a] == '.'
    requires DigitRun(f[sign + a + 1..]) == b
    ensures IsFloat(f)
  {
  }

  /** `float = /-?\d+\.\d+/`, kept as the matched text. */
  function FloatTok(s: string): (r: Option<(string, string)>)
    ensures r.Some? ==> IsFloat(r.value.0) && |r.value.1| < |s|
  {
    var t := SkipWs(s);
    var n := FloatMatch(t);
    if n == 0 then None
    else
      FloatMatchPrefix(t);
      Some((t[..n], t[n..]))
  }

  /** `index = /\d+/`, read as the number it spells (the converter applies `int()`). */
  function IndexTok(s: string): (r: Option<(nat, string)>)
    ensures r.Some? ==> |r.value.1| < |s|
  {
    var t := SkipWs(s);
    var n := DigitRun(t);
    if n == 0 then None else Some((DigitsValue(t[..n]), t[n..]))
  }

  /** A float match ends where no digit follows, so it is greedy. */
  lemma FloatMatchStops(t: string)
    requires FloatMatch(t) > 0
    ensures FloatMatch(t) == |t| || !IsDigit(t[FloatMatch(t)])
  {
    var sign := if t[0] == '-' then 1 else 0;
    var a := DigitRun(t[sign..]);
    var v := t[sign + a + 1..];
    var b := DigitRun(v);
    assert b == |v| || v[b] == t[sign + a + 1 + b];
  }

  /** A float starts with its sign or its first digit. */
  lemma FloatStart(f: string)
    requires IsFloat(f)
    ensures f[0] == '-' || IsDigit(f[0])
  {
  }

  /** What a float token reads, in both directions: exactly a whole float at the start of
      the text after its leading whitespace, up to a character that cannot continue it. */
  lemma FloatTokReads(s: string, f: string, rest: string)
    ensures FloatTok(s) == Some((f, rest)) <==>
      IsFloat(f) && SkipWs(s) == f + rest && (rest == [] || !IsDigit(rest[0]))
  {
    if IsFloat(f) && SkipWs(s) == f + rest && (rest == [] || !IsDigit(rest[0])) {
      FloatTokFinds(SkipWs(s), f, rest);
    }
    if FloatTok(s) == Some((f, rest)) {
      FloatTokSplits(SkipWs(s));
    }
  }

  lemma FloatTokFinds(t: string, f: string, rest: string)
    requires IsFloat(f) && t == f + rest && (rest == [] || !IsDigit(rest[0]))
    ensures FloatMatch(t) == |f| && t[..|f|] == f && t[|f|..] == rest
  {
    FloatMatchAppend(f, rest);
  }

  lemma FloatTokSplits(t: string)
    requires FloatMatch(t) > 0
    ensures var n := FloatMatch(t); t == t[..n] + t[n..] && (t[n..] == [] || !IsDigit(t[n..][0]))
  {
    FloatMatchStops(t);
  }

  /** An index token reads the whole run of digits that starts the text after its leading
      whitespace, and fails exactly when no digit starts it. */
  lemma IndexTokReads(s: string)
    ensures IndexTok(s).None? <==> SkipWs(s) == [] || !IsDigit(SkipWs(s)[0])
    ensures IndexTok(s).Some? ==>
      var t, rest := SkipWs(s), IndexTok(s).value.1;
      var d := t[..|t| - |rest|];
      t == d + rest && d != [] && AllDigits(d) && IndexTok(s).value.0 == DigitsValue(d)
      && (rest == [] || !IsDigit(rest[0]))
  {
    var t := SkipWs(s);
    var n := DigitRun(t);
    assert t == t[..n] + t[n..];
  }

  /** Any digit string followed by text that does not continue it is read as its value. */
  lemma IndexTokReadsDigits(s: string, d: string, rest: string)
    requires d != [] && AllDigits(d) && SkipWs(s) == d + rest
    requires rest == [] || !IsDigit(rest[0])
    ensures IndexTok(s) == Some((DigitsValue(d), rest))
  {
    DigitRunAll(d);
    DigitRunAppend(d, rest);
    assert (d + rest)[..|d|] == d && (d + rest)[|d|..] == rest;
  }

  /** Whitespace of any kind and length in front of a literal changes nothing it reads. */
  lemma SpaceBeforeToken(ws: string, s: string, w: string)
    requires AllSpace(ws) && w != []
    ensures Token(ws + s, w) == Token(s, w)
  {
    SkipWsPrefix(ws, s);
  }

  /** Whitespace of any kind and length in front of a float changes nothing it reads. */
  lemma SpaceBeforeFloat(ws: string, s: string)
    requires AllSpace(ws)
    ensures FloatTok(ws + s) == FloatTok(s)
  {
    SkipWsPrefix(ws, s);
  }

  /** Whitespace of any kind and length in front of an index changes nothing it reads. */
  lemma SpaceBeforeIndex(ws: string, s: string)
    requires AllSpace(ws)
    ensures IndexTok(ws + s) == IndexTok(s)
  {
    SkipWsPrefix(ws, s);
  }

  /** `point = x:float y:float z:float`. */
  function PointP(s: string): (r: Option<(Point, string)>)
    ensures r.Some? ==> ValidPoint(r.value.0) && |r.value.1| < |s|
  {
    var x :- FloatTok(s);
    var y :- FloatTok(x.1);
    var z :- FloatTok(y.1);
    Some((Point(x.0, y.0, z.0), z.1))
  }

  predicate ValidPoint(p: Point) {
    IsFloat(p.x) && IsFloat(p.y) && IsFloat(p.z)
  }

  // ---------------------------------------------------------------- lists

  /** `{ X ',' }`: repeat "element then comma"; the step that fails gives its text back. */
  function CommaLoop<T>(p: Parser<T>, s: string): (r: (seq<T>, string))
    requires Consumes(p)
    ensures |r.1| <= |s|
    ensures r.0 == [] ==> r.1 == s
    decreases |s|
  {
    match p(s)
    case None => ([], s)
    case Some((x, s1)) =>
      match Token(s1, ",")
      case None => ([], s)
      case Some(s2) =>
        var (xs, s3) := CommaLoop(p, s2);
        ([x] + xs, s3)
  }

  /** `{ X ',' } [ X ]`: a comma-separated list with an optional trailing comma. */
  function CommaList<T>(p: Parser<T>, s: string): (r: (seq<T>, string))
    requires Consumes(p)
    ensures |r.1| <= |s|
  {
    var (xs, s1) := CommaLoop(p, s);
    match p(s1)
    case Some((x, s2)) => (xs + [x], s2)
    case None => (xs, s1)
  }

  /** Whatever `p` yields satisfies `ok`, so every element of a list does. */
  lemma {:induction false} CommaLoopKeeps<T>(p: Parser<T>, ok: T -> bool, s: string)
    requires Consumes(p)
    requires forall t :: p(t).Some? ==> ok(p(t).value.0)
    ensures forall k :: 0 <= k < |CommaLoop(p, s).0| ==> ok(CommaLoop(p, s).0[k])
    decreases |s|
  {
    match p(s)
    case None =>
    case Some((x, s1)) =>
      match Token(s1, ",")
      case None =>
      case Some(s2) =>
        CommaLoopKeeps(p, ok, s2);
  }

  lemma {:induction false} CommaListKeeps<T>(p: Parser<T>, ok: T -> bool, s: string)
    requires Consumes(p)
    requires forall t :: p(t).Some? ==> ok(p(t).value.0)
    ensures forall k :: 0 <= k < |CommaList(p, s).0| ==> ok(CommaList(p, s).0[k])
  {
    CommaLoopKeeps(p, ok, s);
  }

  /** `index_group = { @+:index ',' }+ '-1'`: at least one index, each followed by a
      comma, then the `-1` terminator, which is not part of the group. */
  function IndexGroup(s: string): (r: Option<(seq<nat>, string)>)
    ensures r.Some? ==> |r.value.0| >= 1 && |r.value.1| < |s|
  {
    var (indices, s1) := CommaLoop(IndexTok, s);
    if indices == [] then None
    else
      var s2 :- Token(s1, "-1");
      Some((indices, s2))
  }

  predicate NonEmptyGroup(g: seq<nat>) {
    |g| >= 1
  }

  predicate ValidPoints(ps: seq<Point>) {
    forall k :: 0 <= k < |ps| ==> ValidPoint(ps[k])
  }

  predicate ValidFloats(fs: seq<string>) {
    forall k :: 0 <= k < |fs| ==> IsFloat(fs[k])
  }

  predicate ValidGroups(gs: seq<seq<nat>>) {
    forall k :: 0 <= k < |gs| ==> NonEmptyGroup(gs[k])
  }

  /** `points = { @+:point ',' } [ @+:point ]`. */
  function Points(s: string): (r: (seq<Point>, string))
    ensures ValidPoints(r.0) && |r.1| <= |s|
  {
    CommaListKeeps(PointP, ValidPoint, s);
    CommaList(PointP, s)
  }

  /** `floats = { @+:float ',' } [ @+:float ]`. */
  function Floats(s: string): (r: (seq<string>, string))
    ensures ValidFloats(r.0) && |r.1| <= |s|
  {
    CommaListKeeps(FloatTok, IsFloat, s);
    CommaList(FloatTok, s)
  }

  /** `index_groups = { @+:index_group ',' } [ @+:index_group ]`. */
  function IndexGroups(s: string): (r: (seq<seq<nat>>, string))
    ensures ValidGroups(r.0) && |r.1| <= |s|
  {
    CommaListKeeps(IndexGroup, NonEmptyGroup, s);
    CommaList(IndexGroup, s)
  }

  // ---------------------------------------------------------------- blocks

  /** `binding_type = 'PER_VERTEX' | 'PER_FACE'`. */
  function BindingType(s: string): (r: Option<(Binding, string)>)
    ensures r.Some? ==> |r.value.1| < |s|
  {
    match Token(s, "PER_VERTEX")
    case Some(s1) => Some((PerVertex, s1))
    case None =>
      var s1 :- Token(s, "PER_FACE");
      Some((PerFace, s1))
  }

  /** `'Coordinate3' '{' 'point' '[' coords:points ']' '}'`. */
  function CoordinateBlock(s: string): (r: Option<(seq<Point>, string)>)
    ensures r.Some? ==> ValidPoints(r.value.0) && |r.value.1| < |s|
  {
    var s1 :- Token(s, "Coordinate3");
    var s2 :- Token(s1, "{");
    var s3 :- Token(s2, "point");
    var s4 :- Token(s3, "[");
    var (points, s5) := Points(s4);
    var s6 :- Token(s5, "]");
    var s7 :- Token(s6, "}");
    Some((points, s7))
  }

  /** `'MaterialBinding' '{' 'value' mtl_binding:binding_type '}'`. */
  function BindingBlock(s: string): (r: Option<(Binding, string)>)
    ensures r.Some? ==> |r.value.1| < |s|
  {
    var s1 :- Token(s, "MaterialBinding");
    var s2 :- Token(s1, "{");
    var s3 :- Token(s2, "value");
    var b :- BindingType(s3);
    var s4 :- Token(b.1, "}");
    Some((b.0, s4))
  }

  predicate ValidMaterial(m: Material) {
    ValidPoints(m.diffuseColors) && ValidFloats(m.transparencies)
  }

  /** `'Material' '{' 'diffuseColor' '[' points ']' 'transparency[' floats ']' '}'`;
      note that `transparency[` is one literal. */
  function MaterialBlock(s: string): (r: Option<(Material, string)>)
    ensures r.Some? ==> ValidMaterial(r.value.0) && |r.value.1| < |s|
  {
    var s1 :- Token(s, "Material");
    var s2 :- Token(s1, "{");
    var s3 :- Token(s2, "diffuseColor");
    var s4 :- Token(s3, "[");
    var (colors, s5) := Points(s4);
    var s6 :- Token(s5, "]");
    var s7 :- Token(s6, "transparency[");
    var (transparencies, s8) := Floats(s7);
    var s9 :- Token(s8, "]");
    var s10 :- Token(s9, "}");
    Some((Material(colors, transparencies), s10))
  }

  /** `keyword '{' 'coordIndex' '[' index_groups ']' '}'`, shared by the
      `IndexedLineSet` and `IndexedFaceSet` blocks. */
  function IndexBlock(s: string, keyword: string): (r: Option<(seq<seq<nat>>, string)>)
    requires keyword != []
    ensures r.Some? ==> ValidGroups(r.value.0) && |r.value.1| < |s|
  {
    var s1 :- Token(s, keyword);
    var s2 :- Token(s1, "{");
    var s3 :- Token(s2, "coordIndex");
    var s4 :- Token(s3, "[");
    var (groups, s5) := IndexGroups(s4);
    var s6 :- Token(s5, "]");
    var s7 :- Token(s6, "}");
    Some((groups, s7))
  }

  /** `[ block ]`: the block's value, or nothing and all of the input back. */
  function Optional<T>(r: Option<(T, string)>, s: string): (o: (Option<T>, string))
    requires r.Some? ==> |r.value.1| < |s|
    ensures |o.1| <= |s|
    ensures o.0.Some? <==> r.Some?
    ensures o.0.Some? ==> o.0.value == r.value.0
    ensures r.Some? ==> o.1 == r.value.1
    ensures r.None? ==> o.1 == s
  {
    match r
    case Some((v, s1)) => (Some(v), s1)
    case None => (None, s)
  }

  predicate ValidSeparator(sep: Separator) {
    && (sep.coords.Some? ==> ValidPoints(sep.coords.value))
    && (sep.material.Some? ==> ValidMaterial(sep.material.value))
    && (sep.indexedLines.Some? ==> ValidGroups(sep.indexedLines.value))
    && (sep.indexedFaces.Some? ==> ValidGroups(sep.indexedFaces.value))
  }

  /** A document every parse produces: floats are float tokens, index groups are non-empty. */
  predicate WellFormed(doc: Document) {
    forall k :: 0 <= k < |doc| ==> ValidSeparator(doc[k])
  }

  /** `separator = 'Separator' '{' [Coordinate3] [MaterialBinding] [Material]
      [IndexedLineSet] [IndexedFaceSet] '}'`, the blocks optional but in this order. */
  function SeparatorP(s: string): (r: Option<(Separator, string)>)
    ensures r.Some? ==> ValidSeparator(r.value.0) && |r.value.1| < |s|
  {
    var s1 :- Token(s, "Separator");
    var s2 :- Token(s1, "{");
    var (coords, s3) := Optional(CoordinateBlock(s2), s2);
    var (binding, s4) := Optional(BindingBlock(s3), s3);
    var (material, s5) := Optional(MaterialBlock(s4), s4);
    var (lines, s6) := Optional(IndexBlock(s5, "IndexedLineSet"), s5);
    var (faces, s7) := Optional(IndexBlock(s6, "IndexedFaceSet"), s6);
    var s8 :- Token(s7, "}");
    Some((Separator(coords, binding, material, lines, faces), s8))
  }

  /** `{ @+:separator }*`. */
  function Separators(s: string): (r: (Document, string))
    ensures WellFormed(r.0) && |r.1| <= |s|
    decreases |s|
  {
    match SeparatorP(s)
    case None => ([], s)
    case Some((sep, s1)) =>
      var (more, s2) := Separators(s1);
      WellFormedCons(sep, more);
      ([sep] + more, s2)
  }

  lemma WellFormedCons(sep: Separator, more: Document)
    requires ValidSeparator(sep) && WellFormed(more)
    ensures WellFormed([sep] + more)
  {
    assert forall k :: 0 < k <= |more| ==> ([sep] + more)[k] == more[k - 1];
  }

  const Header: string := "#VRML V1.0 ascii"

  /** `start = '#VRML V1.0 ascii' { @+:separator }* $` (`parse_wrl_to_ast`, :95-99).
      `None` is the parser's syntax error. */
  function Parse(text: string): (r: Option<Document>)
    ensures r.Some? ==> WellFormed(r.value)
    ensures r.Some? ==> Header <= SkipWs(text)
  {
    var s1 :- Token(text, Header);
    var (doc, s2) := Separators(s1);
    if AtEnd(s2) then Some(doc) else None
  }
}
