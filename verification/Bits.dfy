/** Bit strings, most significant bit first, and lexicographic order: what base32
    regrouping and the comparison of encoded ids come down to. */
module Bits {

  predicate AreBits(s: seq<nat>) {
    forall k :: 0 <= k < |s| ==> s[k] < 2
  }

  predicate LexLess(a: seq<nat>, b: seq<nat>) {
    if b == [] then false
    else if a == [] then true
    else a[0] < b[0] || (a[0] == b[0] && LexLess(a[1..], b[1..]))
  }

  function Pow2(w: nat): nat {
    if w == 0 then 1 else 2 * Pow2(w - 1)
  }

  /** The w low bits of v. */
  function Low(v: nat, w: nat): (s: seq<nat>)
    ensures |s| == w && AreBits(s)
  {
    if w == 0 then [] else Low(v / 2, w - 1) + [v % 2]
  }

  function Value(s: seq<nat>): nat {
    if s == [] then 0 else 2 * Value(s[..|s| - 1]) + s[|s| - 1]
  }

  lemma {:induction false} ValueBound(s: seq<nat>)
    requires AreBits(s)
    ensures Value(s) < Pow2(|s|)
  {
    if s != [] {
      ValueBound(s[..|s| - 1]);
    }
  }

  lemma {:induction false} LowOfValue(s: seq<nat>)
    requires AreBits(s)
    ensures Low(Value(s), |s|) == s
  {
    if s != [] {
      LowOfValue(s[..|s| - 1]);
      assert s == s[..|s| - 1] + [s[|s| - 1]];
    }
  }

  lemma {:induction false} ValueOfLow(v: nat, w: nat)
    requires v < Pow2(w)
    ensures Value(Low(v, w)) == v
  {
    if w > 0 {
      assert Low(v, w)[..w - 1] == Low(v / 2, w - 1);
      ValueOfLow(v / 2, w - 1);
    }
  }

  /** Lexicographic order splits at a common width: first parts decide unless equal. */
  lemma {:induction false} LexAppend(a: seq<nat>, b: seq<nat>, c: seq<nat>, d: seq<nat>)
    requires |a| == |c|
    ensures LexLess(a + b, c + d) <==> LexLess(a, c) || (a == c && LexLess(b, d))
  {
    if a == [] {
      assert a + b == b && c + d == d;
    } else {
      assert (a + b)[1..] == a[1..] + b && (c + d)[1..] == c[1..] + d;
      LexAppend(a[1..], b, c[1..], d);
      assert a == [a[0]] + a[1..] && c == [c[0]] + c[1..];
    }
  }

  /** At equal width, bit strings are ordered as the numbers they spell. */
  lemma {:induction false} LexIsNumeric(a: seq<nat>, b: seq<nat>)
    requires AreBits(a) && AreBits(b)
    requires |a| == |b|
    ensures LexLess(a, b) <==> Value(a) < Value(b)
    ensures a == b <==> Value(a) == Value(b)
  {
    if a != [] {
      var n := |a| - 1;
      LexIsNumeric(a[..n], b[..n]);
      LexAppend(a[..n], [a[n]], b[..n], [b[n]]);
      assert LexLess([a[n]], [b[n]]) <==> a[n] < b[n];
      assert a == a[..n] + [a[n]] && b == b[..n] + [b[n]];
      assert Value(a) == 2 * Value(a[..n]) + a[n] && Value(b) == 2 * Value(b[..n]) + b[n];
    }
  }

  // ---- Symbols of a fixed bit width ----

  /** Concatenates symbols as w bits each. */
  function Spell(w: nat, xs: seq<nat>): (s: seq<nat>)
    ensures AreBits(s)
  {
    if xs == [] then [] else Low(xs[0], w) + Spell(w, xs[1..])
  }

  predicate Symbols(w: nat, xs: seq<nat>) {
    forall k :: 0 <= k < |xs| ==> xs[k] < Pow2(w)
  }

  /** Cuts a bit string into symbols of w bits, padding the last one with zeros. */
  function Cut(w: nat, s: seq<nat>): (xs: seq<nat>)
    requires w > 0 && AreBits(s)
    ensures Symbols(w, xs)
    decreases |s|
  {
    if s == [] then []
    else if |s| < w then
      var last := s + Low(0, w - |s|);
      ValueBound(last);
      [Value(last)]
    else
      ValueBound(s[..w]);
      [Value(s[..w])] + Cut(w, s[w..])
  }

  lemma {:induction false} CutOfSpell(w: nat, xs: seq<nat>)
    requires w > 0 && Symbols(w, xs)
    ensures Cut(w, Spell(w, xs)) == xs
  {
    if xs != [] {
      var s := Spell(w, xs);
      assert s[..w] == Low(xs[0], w) && s[w..] == Spell(w, xs[1..]);
      ValueOfLow(xs[0], w);
      CutOfSpell(w, xs[1..]);
    }
  }

  function Groups(w: nat, n: nat): nat
    requires w > 0
  {
    if n == 0 then 0 else if n < w then 1 else 1 + Groups(w, n - w)
  }

  /** Spelling back what was cut gives the bits again, before the padding. */
  lemma {:induction false} SpellOfCut(w: nat, s: seq<nat>)
    requires w > 0 && AreBits(s)
    ensures s <= Spell(w, Cut(w, s))
    ensures |Cut(w, s)| == Groups(w, |s|)
    decreases |s|
  {
    if s == [] {
    } else if |s| < w {
      var last := s + Low(0, w - |s|);
      LowOfValue(last);
      assert Spell(w, [Value(last)]) == last + [];
    } else {
      SpellOfCut(w, s[w..]);
      SpellOfFirst(w, s);
    }
  }

  lemma SpellOfFirst(w: nat, s: seq<nat>)
    requires 0 < w <= |s| && AreBits(s)
    ensures Spell(w, Cut(w, s)) == s[..w] + Spell(w, Cut(w, s[w..]))
    ensures s == s[..w] + s[w..]
  {
    LowOfValue(s[..w]);
    CutFirst(w, s);
    SpellFirst(w, Value(s[..w]), Cut(w, s[w..]));
  }

  lemma CutFirst(w: nat, s: seq<nat>)
    requires 0 < w <= |s| && AreBits(s)
    ensures Cut(w, s) == [Value(s[..w])] + Cut(w, s[w..])
  {
  }

  lemma SpellFirst(w: nat, x: nat, xs: seq<nat>)
    ensures Spell(w, [x] + xs) == Low(x, w) + Spell(w, xs)
  {
    assert ([x] + xs)[1..] == xs;
  }

  /** Cutting preserves order, in both directions. */
  lemma {:induction false} CutOrder(w: nat, s: seq<nat>, t: seq<nat>)
    requires w > 0 && AreBits(s) && AreBits(t)
    requires |s| == |t|
    ensures LexLess(Cut(w, s), Cut(w, t)) <==> LexLess(s, t)
    decreases |s|
  {
    if s == [] {
    } else if |s| < w {
      PadOrder(w, s, t);
    } else {
      CutOrder(w, s[w..], t[w..]);
      LexIsNumeric(s[..w], t[..w]);
      LexAppend(s[..w], s[w..], t[..w], t[w..]);
      assert s == s[..w] + s[w..] && t == t[..w] + t[w..];
    }
  }

  lemma PadOrder(w: nat, s: seq<nat>, t: seq<nat>)
    requires AreBits(s) && AreBits(t)
    requires 0 < |s| == |t| < w
    ensures LexLess(Cut(w, s), Cut(w, t)) <==> LexLess(s, t)
  {
    var pad := Low(0, w - |s|);
    LexIsNumeric(s + pad, t + pad);
    LexAppend(s, pad, t, pad);
    LexIrreflexive(pad);
  }

  lemma {:induction false} LexAsymmetric(a: seq<nat>, b: seq<nat>)
    requires LexLess(a, b)
    ensures !LexLess(b, a)
  {
    if a != [] && a[0] == b[0] { LexAsymmetric(a[1..], b[1..]); }
  }

  lemma LexIrreflexive(a: seq<nat>)
    ensures !LexLess(a, a)
  {
  }

  /** Spelling preserves order, in both directions. */
  lemma {:induction false} SpellOrder(w: nat, xs: seq<nat>, ys: seq<nat>)
    requires Symbols(w, xs) && Symbols(w, ys)
    requires |xs| == |ys|
    ensures LexLess(Spell(w, xs), Spell(w, ys)) <==> LexLess(xs, ys)
  {
    if xs != [] {
      SpellOrder(w, xs[1..], ys[1..]);
      LexAppend(Low(xs[0], w), Spell(w, xs[1..]), Low(ys[0], w), Spell(w, ys[1..]));
      LexIsNumeric(Low(xs[0], w), Low(ys[0], w));
      ValueOfLow(xs[0], w);
      ValueOfLow(ys[0], w);
    }
  }
}
