/** Characters, digit strings and string ordering shared by the WRL parser,
    the colour classifier and the OBJ emitter. */
module Text {

  /** An optional value; `:-` propagates `None`. */
  datatype Option<+T> = None | Some(value: T) {
    predicate IsFailure() { None? }
    function PropagateFailure<U>(): Option<U>
      requires None?
    {
      None
    }
    function Extract(): T
      requires Some?
    {
      value
    }
  }

  /** Whitespace as Python's `\s` matches it in a text pattern (the code points
      for which `str.isspace` holds); the grammar skips runs of it before every token. */
  predicate IsSpace(c: char) {
    var n := c as int;
    (9 <= n <= 13) || n == 32 || (28 <= n <= 31) || n == 0x85 || n == 0xA0
    || n == 0x1680 || (0x2000 <= n <= 0x200A) || n == 0x2028 || n == 0x2029
    || n == 0x202F || n == 0x205F || n == 0x3000
  }

  /** A decimal digit as `\d` matches it, restricted to ASCII. */
  predicate IsDigit(c: char) {
    '0' <= c <= '9'
  }

  predicate AllDigits(s: string) {
    forall k :: 0 <= k < |s| ==> IsDigit(s[k])
  }

  /** Drops the leading run of whitespace. */
  function SkipWs(s: string): (t: string)
    ensures |t| <= |s| && t == s[|s| - |t|..]
    ensures forall k :: 0 <= k < |s| - |t| ==> IsSpace(s[k])
  {
    if s != [] && IsSpace(s[0]) then SkipWs(s[1..]) else s
  }

  predicate AllSpace(ws: string) {
    forall k :: 0 <= k < |ws| ==> IsSpace(ws[k])
  }

  /** Whitespace in front of a text is skipped whatever its length and kind. */
  lemma {:induction false} SkipWsPrefix(ws: string, s: string)
    requires AllSpace(ws)
    ensures SkipWs(ws + s) == SkipWs(s)
  {
    if ws != [] {
      assert (ws + s)[0] == ws[0] && IsSpace(ws[0]);
      assert (ws + s)[1..] == ws[1..] + s;
      assert forall k :: 0 <= k < |ws| - 1 ==> ws[1..][k] == ws[k + 1];
      SkipWsPrefix(ws[1..], s);
    } else {
      assert ws + s == s;
    }
  }

  /** Text that does not start with whitespace is left as it is. */
  lemma SkipWsNone(s: string)
    requires s == [] || !IsSpace(s[0])
    ensures SkipWs(s) == s
  {
  }

  /** Skipping stops at the first character that is not whitespace. */
  lemma {:induction false} SkipWsStops(s: string)
    ensures SkipWs(s) == [] || !IsSpace(SkipWs(s)[0])
  {
    if s != [] && IsSpace(s[0]) {
      SkipWsStops(s[1..]);
    }
  }

  /** Length of the longest prefix of `s` made of digits: the extent of a greedy `\d+`. */
  function DigitRun(s: string): (n: nat)
    ensures n <= |s| && AllDigits(s[..n])
    ensures n == |s| || !IsDigit(s[n])
  {
    if s != [] && IsDigit(s[0]) then 1 + DigitRun(s[1..]) else 0
  }

  function DigitValue(c: char): nat
    requires IsDigit(c)
  {
    (c - '0') as nat
  }

  function DigitChar(d: nat): (c: char)
    requires d < 10
    ensures IsDigit(c) && DigitValue(c) == d
  {
    ('0' as int + d) as char
  }

  /** The value of a digit string, as Python's `int()` gives it. */
  function DigitsValue(s: string): nat
    requires AllDigits(s)
  {
    if s == [] then 0 else DigitsValue(s[..|s| - 1]) * 10 + DigitValue(s[|s| - 1])
  }

  /** Decimal rendering of a natural number without leading zeros, as Python's `str()`. */
  function NatToString(n: nat): (s: string)
    ensures s != [] && AllDigits(s)
    ensures |s| > 1 ==> s[0] != '0'
  {
    if n < 10 then [DigitChar(n)] else NatToString(n / 10) + [DigitChar(n % 10)]
  }

  /** Reading back a rendered number gives the number. */
  lemma {:induction false} NatToStringRoundTrip(n: nat)
    ensures DigitsValue(NatToString(n)) == n
  {
    if n >= 10 {
      var s := NatToString(n);
      assert s[..|s| - 1] == NatToString(n / 10);
      NatToStringRoundTrip(n / 10);
    }
  }

  /** A greedy digit run over `s + t` stops where it stops over `s`, when it stops
      inside `s` or when `t` does not start with a digit. */
  lemma {:induction false} DigitRunAppend(s: string, t: string)
    requires DigitRun(s) < |s| || t == [] || !IsDigit(t[0])
    ensures DigitRun(s + t) == DigitRun(s)
  {
    if s != [] {
      assert (s + t)[1..] == s[1..] + t;
      if IsDigit(s[0]) {
        DigitRunAppend(s[1..], t);
      }
    }
  }

  /** Python's string order `a <= b`: code point by code point, a proper prefix first. */
  predicate LexLe(a: string, b: string) {
    a == [] || (b != [] && (a[0] < b[0] || (a[0] == b[0] && LexLe(a[1..], b[1..]))))
  }

  predicate LexLess(a: string, b: string) {
    LexLe(a, b) && a != b
  }

  lemma {:induction false} LexLeReflexive(a: string)
    ensures LexLe(a, a)
  {
    if a != [] {
      LexLeReflexive(a[1..]);
    }
  }

  lemma {:induction false} LexLeAntisymmetric(a: string, b: string)
    requires LexLe(a, b) && LexLe(b, a)
    ensures a == b
  {
    if a != [] {
      LexLeAntisymmetric(a[1..], b[1..]);
    }
  }

  lemma {:induction false} LexLeTransitive(a: string, b: string, c: string)
    requires LexLe(a, b) && LexLe(b, c)
    ensures LexLe(a, c)
  {
    if a != [] && b[0] == a[0] && c[0] == b[0] {
      LexLeTransitive(a[1..], b[1..], c[1..]);
    }
  }

  lemma {:induction false} LexLeTotal(a: string, b: string)
    ensures LexLe(a, b) || LexLe(b, a)
  {
    if a != [] && b != [] && a[0] == b[0] {
      LexLeTotal(a[1..], b[1..]);
    }
  }

  predicate IsLeast(m: string, S: set<string>) {
    m in S && forall y :: y in S ==> LexLe(m, y)
  }

  /** Every non-empty finite set of strings has a least element. */
  lemma {:induction false} LeastExists(S: set<string>)
    requires S != {}
    ensures exists m :: IsLeast(m, S)
    decreases |S|
  {
    var x :| x in S;
    LexLeReflexive(x);
    if S == {x} {
      assert IsLeast(x, S);
    } else {
      LeastExists(S - {x});
      var m :| IsLeast(m, S - {x});
      LexLeTotal(x, m);
      if LexLe(x, m) {
        forall y | y in S ensures LexLe(x, y) {
          if y != x {
            LexLeTransitive(x, m, y);
          }
        }
        assert IsLeast(x, S);
      } else {
        forall y | y in S ensures LexLe(m, y) {
          if y != x {
            assert y in S - {x};
          }
        }
        assert IsLeast(m, S);
      }
    }
  }

  /** The least element of a non-empty set of strings. */
  function Least(S: set<string>): (m: string)
    requires S != {}
    ensures m in S && forall y :: y in S ==> LexLe(m, y)
  {
    LeastExists(S);
    assert forall a, b :: a in S && b in S && LexLe(a, b) && LexLe(b, a) ==> a == b by {
      forall a, b | a in S && b in S && LexLe(a, b) && LexLe(b, a) ensures a == b {
        LexLeAntisymmetric(a, b);
      }
    }
    var m :| IsLeast(m, S);
    m
  }

  predicate StrictlySorted(s: seq<string>) {
    forall i, j :: 0 <= i < j < |s| ==> LexLess(s[i], s[j])
  }

  /** The elements of a set in ascending order, as Python's `sorted()` lists a set of strings. */
  function SortedElements(S: set<string>): seq<string>
    decreases |S|
  {
    if S == {} then [] else [Least(S)] + SortedElements(S - {Least(S)})
  }

  /** The listing is strictly ascending and holds exactly the elements of the set. */
  lemma {:induction false} SortedElementsSpec(S: set<string>)
    ensures StrictlySorted(SortedElements(S))
    ensures forall x :: x in SortedElements(S) <==> x in S
    ensures |SortedElements(S)| == |S|
    decreases |S|
  {
    if S != {} {
      var m := Least(S);
      var rest := SortedElements(S - {m});
      SortedElementsSpec(S - {m});
      forall j | 0 <= j < |rest| ensures LexLess(m, rest[j]) {
        assert rest[j] in rest;
      }
      assert SortedElements(S) == [m] + rest;
    }
  }

  /** A strictly ascending listing of a set is unique. */
  lemma {:induction false} SortedListingUnique(a: seq<string>, b: seq<string>)
    requires StrictlySorted(a) && StrictlySorted(b)
    requires forall x :: x in a <==> x in b
    ensures a == b
  {
    if a != [] {
      assert a[0] in a;
    }
    if b != [] {
      assert b[0] in b;
    }
    if a != [] && b != [] {
      assert a[0] == b[0] by {
        if a[0] != b[0] {
          assert a[0] in a && b[0] in b;
          var i :| 0 <= i < |b| && b[i] == a[0];
          var j :| 0 <= j < |a| && a[j] == b[0];
          assert i > 0 && j > 0;
          assert LexLess(b[0], b[i]) && LexLess(a[0], a[j]);
          LexLeAntisymmetric(a[0], b[0]);
        }
      }
      forall x ensures x in a[1..] <==> x in b[1..] {
        if x in a[1..] {
          var i :| 0 <= i < |a| - 1 && a[1..][i] == x;
          assert a[i + 1] == x && LexLess(a[0], a[i + 1]);
          assert x in b;
          var k :| 0 <= k < |b| && b[k] == x;
          assert k != 0;
          assert b[1..][k - 1] == x;
        }
        if x in b[1..] {
          var i :| 0 <= i < |b| - 1 && b[1..][i] == x;
          assert b[i + 1] == x && LexLess(b[0], b[i + 1]);
          assert x in a;
          var k :| 0 <= k < |a| && a[k] == x;
          assert k != 0;
          assert a[1..][k - 1] == x;
        }
      }
      SortedListingUnique(a[1..], b[1..]);
    }
  }

  /** Python's `sep.join(xs)`. */
  function Join(xs: seq<string>, sep: string): string {
    if xs == [] then ""
    else if |xs| == 1 then xs[0]
    else xs[0] + sep + Join(xs[1..], sep)
  }
}
