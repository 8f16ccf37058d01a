/** The colour classifier `infer_error_type` (tools_misc/wrl_to_obj.py:101-167): it names
    the kind of problem a separator shows from the diffuse colours Tool painted it with. */
module Classifier {
  import opened Text
  import opened WrlAst
  import opened WrlParser
  import opened Outcome

  /** The eight colour keys whose meaning is known. */
  const ColorNames: map<string, string> := map[
    "1.000000,0.000000,0.000000" := "red",
    "0.000000,1.000000,0.000000" := "green",
    "1.000000,0.500000,0.000000" := "orange",
    "0.000000,1.000000,1.000000" := "cyan",
    "1.000000,1.000000,0.000000" := "yellow",
    "1.000000,0.000000,1.000000" := "magenta",
    "0.000000,0.000000,0.000000" := "black",
    "0.000000,0.000000,1.000000" := "blue"]

  /** A colour's key: its three components exactly as written, joined by commas. */
  function ColorKey(p: Point): string {
    Join([p.x, p.y, p.z], ",")
  }

  /** The name of a known colour, or the key itself for any other colour. */
  function ColorName(p: Point): string {
    var key := ColorKey(p);
    if key in ColorNames then ColorNames[key] else key
  }

  /** The set of colour names of a list of colours, built one colour at a time. */
  function FoundColors(cs: seq<Point>): set<string> {
    if cs == [] then {} else FoundColors(cs[..|cs| - 1]) + {ColorName(cs[|cs| - 1])}
  }

  /** The names found are exactly the names of the colours listed. */
  lemma {:induction false} FoundColorsIff(cs: seq<Point>, n: string)
    ensures n in FoundColors(cs) <==> exists k :: 0 <= k < |cs| && ColorName(cs[k]) == n
  {
    if cs != [] {
      var init := cs[..|cs| - 1];
      FoundColorsIff(init, n);
      assert forall k :: 0 <= k < |init| ==> init[k] == cs[k];
      if n == ColorName(cs[|cs| - 1]) {
        assert ColorName(cs[|cs| - 1]) == n;
      }
    }
  }

  /** The suffix every label carries: the names found, sorted, in parentheses. */
  function ColorInfo(found: set<string>): string {
    " (" + Join(SortedElements(found), ", ") + ")"
  }

  /** The labels `infer_error_type` can give. */
  datatype Label =
    | NearlyCoplanar | DegenerateOrZBuffered | PortalOutsideBsp
    | BadEdge | UnearthedEdge
    | ClippedToNoLeaves | PortalNotDividing | PortalNotClosing
    | DuplicateTriangle | FogPlanesIntersect | DegenerateTriangle
    | Unknown

  /** The text of a label. */
  function LabelText(l: Label): string {
    match l
    case NearlyCoplanar => "nearly coplanar surfaces"
    case DegenerateOrZBuffered => "degenerate or z-buffered triangle"
    case PortalOutsideBsp => "portal outside BSP"
    case BadEdge => "bad edge"
    case UnearthedEdge => "unearthed edge or T-junction"
    case ClippedToNoLeaves => "surface clipped to no leaves"
    case PortalNotDividing => "portal does not divide space"
    case PortalNotClosing => "portal does not define two closed spaces"
    case DuplicateTriangle => "duplicate triangle or overlapping surface"
    case FogPlanesIntersect => "two fog planes intersected in a cluster"
    case DegenerateTriangle => "degenerate triangle or UVs"
    case Unknown => "unknown"
  }

  /** The priority chain: each step holds the label chosen when every colour in `needs`
      was found and the steps tried otherwise; past the last step the label is `Unknown`. */
  datatype Rules = Fallback | Rule(needs: set<string>, kind: Label, otherwise: Rules)

  /** The steps tried for every binding, after the binding-specific ones. */
  const CommonRules: Rules :=
    Rule({"cyan"}, ClippedToNoLeaves,
    Rule({"green"}, PortalNotDividing,
    Rule({"yellow"}, PortalNotClosing,
    Rule({"orange"}, DuplicateTriangle,
    Rule({"black"}, FogPlanesIntersect,
    Rule({"blue"}, DegenerateTriangle,
    Fallback))))))

  /** The chain for `PER_FACE` geometry. */
  const FaceRules: Rules :=
    Rule({"red", "green"}, NearlyCoplanar,
    Rule({"red"}, DegenerateOrZBuffered,
    Rule({"magenta"}, PortalOutsideBsp,
    CommonRules)))

  /** The chain for `PER_VERTEX` geometry. */
  const VertexRules: Rules :=
    Rule({"red"}, BadEdge,
    Rule({"magenta"}, UnearthedEdge,
    CommonRules))

  function RulesFor(binding: Option<Binding>): Rules {
    match binding
    case Some(PerFace) => FaceRules
    case Some(PerVertex) => VertexRules
    case None => CommonRules
  }

  /** The label of the first step whose colours were all found. */
  function Pick(rules: Rules, found: set<string>): Label {
    match rules
    case Fallback => Unknown
    case Rule(needs, kind, otherwise) => if needs <= found then kind else Pick(otherwise, found)
  }

  /** The label the chain picks for a binding and a set of colour names. */
  function Diagnosis(binding: Option<Binding>, found: set<string>): Label {
    Pick(RulesFor(binding), found)
  }

  /** What the classifier decides: a label and the colour names it was decided from. */
  datatype Verdict = Verdict(kind: Label, found: set<string>)

  /** The decision for a non-empty colour list, or the failure raised when the list is
      absent or empty (the suffix variable is then never bound). */
  function Classify(binding: Option<Binding>, colors: Option<seq<Point>>): (r: Result<Verdict>)
    ensures r.Err? <==> colors.None? || colors.value == []
    ensures r.Err? ==> r.error == ColorInfoUnbound
  {
    if colors.None? || colors.value == [] then Err(ColorInfoUnbound)
    else
      var found := FoundColors(colors.value);
      Ok(Verdict(Diagnosis(binding, found), found))
  }

  /** The text of a decision: the label, then the sorted names in parentheses. */
  function Title(v: Verdict): string {
    LabelText(v.kind) + ColorInfo(v.found)
  }

  /** The string `infer_error_type` returns, or the failure it raises. */
  function ErrorType(binding: Option<Binding>, colors: Option<seq<Point>>): (r: Result<string>)
    ensures r.Err? <==> colors.None? || colors.value == []
    ensures r.Err? ==> r.error == ColorInfoUnbound
  {
    var v :- Classify(binding, colors);
    Ok(Title(v))
  }

  /** `infer_error_type` as written: the colour names are collected, then a chain of
      tests picks the label. */
  method InferErrorType(binding: Option<Binding>, colors: Option<seq<Point>>) returns (r: Result<string>)
    ensures r == ErrorType(binding, colors)
  {
    if colors.None? || |colors.value| == 0 {
      return Err(ColorInfoUnbound);
    }
    var found := CollectNames(colors.value);
    var info := " (" + Join(SortedElements(found), ", ") + ")";
    var kind := Chain(binding, found);
    r := Ok(LabelText(kind) + info);
  }

  /** The loop of tools_misc/wrl_to_obj.py:119-123: looks every colour up and adds its name to the set. */
  method CollectNames(cs: seq<Point>) returns (found: set<string>)
    ensures found == FoundColors(cs)
  {
    found := {};
    var i := 0;
    while i < |cs|
      invariant 0 <= i <= |cs|
      invariant found == FoundColors(cs[..i])
    {
      var key := ColorKey(cs[i]);
      var name := if key in ColorNames then ColorNames[key] else key;
      assert cs[..i + 1][..i] == cs[..i];
      assert cs[..i + 1][i] == cs[i];
      found := found + {name};
      i := i + 1;
    }
    assert cs[..i] == cs;
  }

  lemma {:induction false} CommonSteps(found: set<string>)
    ensures Pick(CommonRules, found) ==
      if "cyan" in found then ClippedToNoLeaves
      else if "green" in found then PortalNotDividing
      else if "yellow" in found then PortalNotClosing
      else if "orange" in found then DuplicateTriangle
      else if "black" in found then FogPlanesIntersect
      else if "blue" in found then DegenerateTriangle
      else Unknown
  {
    var r1 := CommonRules.otherwise;
    var r3 := r1.otherwise.otherwise;
    var r5 := r3.otherwise.otherwise;
    assert Pick(CommonRules, found) == if "cyan" in found then ClippedToNoLeaves else Pick(r1, found);
    assert Pick(r1, found) == if "green" in found then PortalNotDividing else Pick(r1.otherwise, found);
    assert Pick(r1.otherwise, found) == if "yellow" in found then PortalNotClosing else Pick(r3, found);
    assert Pick(r3, found) == if "orange" in found then DuplicateTriangle else Pick(r3.otherwise, found);
    assert Pick(r3.otherwise, found) == if "black" in found then FogPlanesIntersect else Pick(r5, found);
    assert Pick(r5, found) == if "blue" in found then DegenerateTriangle else Unknown;
  }

  lemma {:induction false} FaceSteps(found: set<string>)
    ensures Pick(FaceRules, found) ==
      if "red" in found && "green" in found then NearlyCoplanar
      else if "red" in found then DegenerateOrZBuffered
      else if "magenta" in found then PortalOutsideBsp
      else Pick(CommonRules, found)
  {
    var rules := FaceRules.otherwise;
    assert Pick(FaceRules, found) == if {"red", "green"} <= found then NearlyCoplanar else Pick(rules, found);
    assert Pick(rules, found) == if {"red"} <= found then DegenerateOrZBuffered else Pick(rules.otherwise, found);
  }

  lemma {:induction false} VertexSteps(found: set<string>)
    ensures Pick(VertexRules, found) ==
      if "red" in found then BadEdge
      else if "magenta" in found then UnearthedEdge
      else Pick(CommonRules, found)
  {
    var rules := VertexRules.otherwise;
    assert Pick(VertexRules, found) == if {"red"} <= found then BadEdge else Pick(rules, found);
  }

  /** The if-chain of tools_misc/wrl_to_obj.py:126-166. */
  method Chain(binding: Option<Binding>, found: set<string>) returns (kind: Label)
    ensures kind == Diagnosis(binding, found)
  {
    if binding == Some(PerFace) {
      FaceSteps(found);
      if "red" in found && "green" in found {
        return NearlyCoplanar;
      }
      if "red" in found {
        return DegenerateOrZBuffered;
      }
      if "magenta" in found {
        return PortalOutsideBsp;
      }
    } else if binding == Some(PerVertex) {
      VertexSteps(found);
      if "red" in found {
        return BadEdge;
      }
      if "magenta" in found {
        return UnearthedEdge;
      }
    }
    CommonSteps(found);
    if "cyan" in found {
      return ClippedToNoLeaves;
    }
    if "green" in found {
      return PortalNotDividing;
    }
    if "yellow" in found {
      return PortalNotClosing;
    }
    if "orange" in found {
      return DuplicateTriangle;
    }
    if "black" in found {
      return FogPlanesIntersect;
    }
    if "blue" in found {
      return DegenerateTriangle;
    }
    return Unknown;
  }

  // ---------------------------------------------------------------- properties

  /** The colours that can decide the label: the binding-specific ones count only
      when a binding is given. */
  function DecidingColors(binding: Option<Binding>): set<string> {
    var common := {"cyan", "green", "yellow", "orange", "black", "blue"};
    if binding.Some? then {"red", "magenta"} + common else common
  }

  /** The label is `"unknown"` exactly when none of the deciding colours was found;
      in particular red or magenta alone decide nothing without a binding. */
  lemma {:induction false} UnknownIff(binding: Option<Binding>, found: set<string>)
    ensures Diagnosis(binding, found) == Unknown <==> found !! DecidingColors(binding)
  {
    CommonSteps(found);
    match binding
    case Some(PerFace) =>
      FaceSteps(found);
    case Some(PerVertex) =>
      VertexSteps(found);
    case None =>
  }

  /** Only which colours occur matters: not their order, nor how often they repeat. */
  lemma {:induction false} OrderIrrelevant(binding: Option<Binding>, cs: seq<Point>, ds: seq<Point>)
    requires forall p :: p in cs <==> p in ds
    ensures ErrorType(binding, Some(cs)) == ErrorType(binding, Some(ds))
  {
    forall n ensures n in FoundColors(cs) <==> n in FoundColors(ds) {
      FoundColorsIff(cs, n);
      FoundColorsIff(ds, n);
      if n in FoundColors(cs) {
        var k :| 0 <= k < |cs| && ColorName(cs[k]) == n;
        assert cs[k] in ds;
        var j :| 0 <= j < |ds| && ds[j] == cs[k];
      }
      if n in FoundColors(ds) {
        var k :| 0 <= k < |ds| && ColorName(ds[k]) == n;
        assert ds[k] in cs;
        var j :| 0 <= j < |cs| && cs[j] == ds[k];
      }
    }
    assert FoundColors(cs) == FoundColors(ds);
    if cs != [] {
      assert cs[0] in ds;
    }
    if ds != [] {
      assert ds[0] in cs;
    }
  }

  /** The suffix lists every name found exactly once, in ascending order: it is the
      only strictly ascending listing of the set. */
  lemma {:induction false} SuffixListing(found: set<string>, names: seq<string>)
    requires StrictlySorted(names) && forall x :: x in names <==> x in found
    ensures ColorInfo(found) == " (" + Join(names, ", ") + ")"
  {
    SortedElementsSpec(found);
    SortedListingUnique(SortedElements(found), names);
  }

  lemma {:induction false} ColorKeyParts(p: Point)
    ensures ColorKey(p) == p.x + "," + (p.y + "," + p.z)
  {
    assert [p.x, p.y, p.z][1..] == [p.y, p.z];
    assert [p.y, p.z][1..] == [p.z];
    assert Join([p.z], ",") == p.z;
    assert Join([p.y, p.z], ",") == p.y + "," + p.z;
  }

  predicate NoComma(s: string) {
    forall k :: 0 <= k < |s| ==> s[k] != ','
  }

  /** A float token is a sign, digits and a point: never a comma. */
  lemma {:induction false} FloatNoComma(f: string)
    requires IsFloat(f)
    ensures NoComma(f)
  {
    var sign := if f != [] && f[0] == '-' then 1 else 0;
    var a := DigitRun(f[sign..]);
    var b := DigitRun(f[sign + a + 1..]);
    assert |f| == sign + a + 1 + b;
    forall i | 0 <= i < |f| ensures f[i] != ',' {
      if sign <= i < sign + a {
        assert f[sign..][..a][i - sign] == f[i];
      } else if sign + a < i {
        assert f[sign + a + 1..][..b][i - sign - a - 1] == f[i];
      }
    }
  }

  lemma {:induction false} CommaAt(a: string, b: string)
    ensures (a + "," + b)[|a|] == ','
  {
  }

  /** A comma-free field followed by a comma is split off uniquely. */
  lemma {:induction false} SplitAtComma(a: string, b: string, c: string, d: string)
    requires NoComma(a) && NoComma(c) && a + "," + b == c + "," + d
    ensures a == c && b == d
  {
    var s := a + "," + b;
    if |a| < |c| {
      CommaAt(a, b);
      assert false;
    } else if |c| < |a| {
      CommaAt(c, d);
      assert false;
    } else {
      assert a == s[..|a|] == c;
      assert b == s[|a| + 1..] == d;
    }
  }

  /** Two colours as the grammar accepts them have the same key only when they are
      written the same: the key loses nothing. */
  lemma {:induction false} ColorKeyInjective(p: Point, q: Point)
    requires ValidPoint(p) && ValidPoint(q) && ColorKey(p) == ColorKey(q)
    ensures p == q
  {
    ColorKeyParts(p);
    ColorKeyParts(q);
    FloatNoComma(p.x);
    FloatNoComma(q.x);
    FloatNoComma(p.y);
    FloatNoComma(q.y);
    SplitAtComma(p.x, p.y + "," + p.z, q.x, q.y + "," + q.z);
    SplitAtComma(p.y, p.z, q.y, q.z);
  }

  /** A known name is reported exactly for the colour with that name's key: other
      colours keep their key, which holds a comma no name has. */
  lemma {:induction false} NamedColor(p: Point, key: string)
    ensures key in ColorNames ==> (ColorName(p) == ColorNames[key] <==> ColorKey(p) == key)
    ensures ColorKey(p) !in ColorNames <==> ColorName(p) == ColorKey(p)
  {
    ColorKeyParts(p);
    var k := ColorKey(p);
    assert k[|p.x|] == ',';
    ColorNamesInjective();
    ColorNamesNoComma();
  }

  /** The table gives different keys different names. */
  lemma ColorNamesInjective()
    ensures forall a, b :: a in ColorNames && b in ColorNames && ColorNames[a] == ColorNames[b] ==> a == b
  {
  }

  /** No name in the table holds a comma. */
  lemma ColorNamesNoComma()
    ensures forall a :: a in ColorNames ==> NoComma(ColorNames[a])
  {
  }

  lemma RedKey()
    ensures ColorKey(Point("1.000000", "0.000000", "0.000000")) == "1.000000,0.000000,0.000000"
  {
    ColorKeyParts(Point("1.000000", "0.000000", "0.000000"));
  }

  lemma RedName()
    ensures ColorName(Point("1.000000", "0.000000", "0.000000")) == "red"
  {
    RedKey();
  }

  lemma GreenKey()
    ensures ColorKey(Point("0.000000", "1.000000", "0.000000")) == "0.000000,1.000000,0.000000"
  {
    ColorKeyParts(Point("0.000000", "1.000000", "0.000000"));
  }

  lemma GreenName()
    ensures ColorName(Point("0.000000", "1.000000", "0.000000")) == "green"
  {
    GreenKey();
  }

  lemma {:induction false} CoplanarFound(red: Point, green: Point)
    requires red == Point("1.000000", "0.000000", "0.000000")
    requires green == Point("0.000000", "1.000000", "0.000000")
    ensures FoundColors([red, green]) == {"red", "green"}
  {
    RedName();
    GreenName();
    assert [red, green][..1] == [red] && [red][..0] == [];
    assert FoundColors([red]) == {"red"};
  }

  lemma {:induction false} CoplanarInfo(found: set<string>)
    requires found == {"red", "green"}
    ensures ColorInfo(found) == " (green, red)"
  {
    var names := ["green", "red"];
    assert LexLess(names[0], names[1]);
    SuffixListing(found, names);
    CoplanarJoin(names);
  }

  lemma {:induction false} CoplanarJoin(names: seq<string>)
    requires names == ["green", "red"]
    ensures " (" + Join(names, ", ") + ")" == " (green, red)"
  {
    assert names[1..] == ["red"];
  }

  lemma {:induction false} CoplanarKind(found: set<string>)
    requires found == {"red", "green"}
    ensures Diagnosis(Some(PerFace), found) == NearlyCoplanar
  {
    FaceSteps(found);
  }

  lemma {:induction false} CoplanarText()
    ensures "nearly coplanar surfaces" + " (green, red)" == "nearly coplanar surfaces (green, red)"
  {
  }

  lemma {:induction false} LabelOf(binding: Option<Binding>, cs: seq<Point>, kind: string, info: string)
    requires cs != [] && LabelText(Diagnosis(binding, FoundColors(cs))) == kind && ColorInfo(FoundColors(cs)) == info
    ensures ErrorType(binding, Some(cs)) == Ok(kind + info)
  {
  }

  /** Red and green faces: the first rule wins and the suffix lists both names. */
  lemma {:induction false} CoplanarExample(cs: seq<Point>)
    requires cs == [Point("1.000000", "0.000000", "0.000000"), Point("0.000000", "1.000000", "0.000000")]
    ensures ErrorType(Some(PerFace), Some(cs)) == Ok("nearly coplanar surfaces (green, red)")
  {
    CoplanarFound(cs[0], cs[1]);
    assert cs == [cs[0], cs[1]];
    var found := FoundColors(cs);
    CoplanarInfo(found);
    CoplanarKind(found);
    LabelOf(Some(PerFace), cs, "nearly coplanar surfaces", " (green, red)");
    CoplanarText();
  }
}
