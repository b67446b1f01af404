/**
 Carry-less arithmetic on 64-bit words (waprox/rabinfinger2.c): degree, 128-bit remainder and
 128-bit product.
 */
module Fingerprint {
  import opened Gf2
  import opened Word64

  ghost function Degree(p: Poly): nat
    requires p != {}
    ensures HasDegree(p, Degree(p))
  {
    Bound(p) - 1
  }

  method GetDegree(poly: Word) returns (k: nat)
    ensures k <= 63
    ensures poly == {} ==> k == 0
    ensures poly != {} ==> HasDegree(poly, k)
  {
    k := 63;
    while !TestBit(poly, k) && k > 0
      invariant k <= 63 && Below(poly, k + 1)
    {
      k := k - 1;
    }
    if poly != {} {
      ghost var e :| e in poly;
    }
  }

  /** poly << (63 - k), the modulus aligned with the top of the word. */
  function Aligned(poly: Word, k: nat): Word
    requires k <= 63
  {
    Shl(poly, 63 - k)
  }

  /** The aligned modulus shifted left by i + 1 across two words. */
  lemma AlignedSplits(poly: Word, k: nat, i: nat)
    requires k <= 63 && Below(poly, k + 1) && i <= 63
    ensures Poly128(Shr(Aligned(poly, k), 63 - i), Shl(Aligned(poly, k), i + 1)) == Shift(poly, i + 1 + (63 - k))
  {
    var norm := Aligned(poly, k);
    var s := i + 1 + (63 - k);
    var hi, lo := Shr(norm, 63 - i), Shl(norm, i + 1);
    forall e: nat ensures e in Poly128(hi, lo) <==> e in Shift(poly, s) {
      if e >= 64 {
        assert e - 64 in hi <==> e - (i + 1) in norm;
      } else {
        assert e in lo <==> i + 1 <= e && e - (i + 1) in norm;
      }
    }
  }

  lemma Poly128Add(h: Word, l: Word, h': Word, l': Word)
    ensures Poly128(Xor(h, h'), Xor(l, l')) == Add(Poly128(h, l), Poly128(h', l'))
  {
  }

  /** One step of the reduction of the high word. */
  lemma ReduceHigh(h: Word, l: Word, poly: Word, k: nat, i: nat)
    requires k <= 63 && HasDegree(poly, k) && i <= 63 && i in h && Below(h, i + 1)
    ensures Below(Xor(h, Shr(Aligned(poly, k), 63 - i)), i)
    ensures Congruent(Poly128(h, l),
                      Poly128(Xor(h, Shr(Aligned(poly, k), 63 - i)), Xor(l, Shl(Aligned(poly, k), i + 1))), poly)
  {
    var norm := Aligned(poly, k);
    assert 63 in norm;
    AlignedSplits(poly, k, i);
    Poly128Add(h, l, Shr(norm, 63 - i), Shl(norm, i + 1));
    CongruentModulus(Poly128(h, l), i + 1 + (63 - k), poly);
    assert i in Shr(norm, 63 - i);
  }

  /** The aligned modulus brought down so that its top is at position i. */
  lemma AlignedDown(poly: Word, k: nat, i: nat)
    requires k <= i <= 63 && Below(poly, k + 1)
    ensures Shr(Aligned(poly, k), 63 - i) == Shift(poly, i - k)
  {
    var norm := Aligned(poly, k);
    var s, t := Shr(norm, 63 - i), Shift(poly, i - k);
    forall e: nat ensures e in s <==> e in t {
      var f := e + (63 - i);
      assert e in s <==> f in norm;
    }
  }

  /** One step of the reduction of the low word. */
  lemma ReduceLow(l: Word, poly: Word, k: nat, i: nat)
    requires k <= i <= 63 && HasDegree(poly, k) && i in l && Below(l, i + 1)
    ensures Below(Xor(l, Shr(Aligned(poly, k), 63 - i)), i)
    ensures Congruent(l, Xor(l, Shr(Aligned(poly, k), 63 - i)), poly)
  {
    hide Congruent;
    AlignedDown(poly, k, i);
    CongruentModulus(l, i - k, poly);
    assert i in Shift(poly, i - k);
  }

  /** What the reduction of the high word keeps: the class of h0:l0, and h below position n. */
  ghost predicate HighReduced(h0: Word, l0: Word, poly: Word, h: Word, l: Word, n: nat) {
    if poly == {} then l == l0 else Below(h, n) && Congruent(Poly128(h0, l0), Poly128(h, l), poly)
  }

  lemma HighStep(h0: Word, l0: Word, poly: Word, k: nat, h: Word, l: Word, i: nat)
    requires i <= 63 && k <= 63 && (poly != {} ==> HasDegree(poly, k))
    requires HighReduced(h0, l0, poly, h, l, i + 1) && i in h
    ensures HighReduced(h0, l0, poly, Xor(h, Shr(Aligned(poly, k), 63 - i)), Xor(l, Shl(Aligned(poly, k), i + 1)), i)
  {
    var h', l' := Xor(h, Shr(Aligned(poly, k), 63 - i)), Xor(l, Shl(Aligned(poly, k), i + 1));
    if poly == {} {
      assert l' == l;
    } else {
      ReduceHigh(h, l, poly, k, i);
      CongruentTrans(Poly128(h0, l0), Poly128(h, l), Poly128(h', l'), poly);
    }
  }

  /** What the reduction of the low word keeps. */
  ghost predicate LowReduced(h0: Word, l0: Word, poly: Word, l: Word, n: nat) {
    if poly == {} then l == l0 else Below(l, n) && Congruent(Poly128(h0, l0), l, poly)
  }

  lemma LowStep(h0: Word, l0: Word, poly: Word, k: nat, l: Word, i: nat)
    requires k <= i <= 63 && (poly != {} ==> HasDegree(poly, k))
    requires LowReduced(h0, l0, poly, l, i + 1) && i in l
    ensures LowReduced(h0, l0, poly, Xor(l, Shr(Aligned(poly, k), 63 - i)), i)
  {
    var l' := Xor(l, Shr(Aligned(poly, k), 63 - i));
    if poly == {} {
      assert l' == l;
    } else {
      ReduceLow(l, poly, k, i);
      CongruentTrans(Poly128(h0, l0), l, l', poly);
    }
  }

  lemma HighStart(h0: Word, l0: Word, poly: Word)
    ensures HighReduced(h0, l0, poly, h0, l0, 64)
  {
    CongruentRefl(Poly128(h0, l0), poly);
  }

  lemma HighWeaken(h0: Word, l0: Word, poly: Word, h: Word, l: Word, n: nat)
    requires HighReduced(h0, l0, poly, h, l, n + 1) && n !in h
    ensures HighReduced(h0, l0, poly, h, l, n)
  {
  }

  lemma HighDone(h0: Word, l0: Word, poly: Word, h: Word, l: Word)
    requires HighReduced(h0, l0, poly, h, l, 0)
    ensures LowReduced(h0, l0, poly, l, 64)
  {
    assert h == {} ==> Poly128(h, l) == l;
  }

  lemma TopStep(norm: Word, l: Word)
    ensures Shr(norm, 0) == norm && Xor(l, Shl(norm, 64)) == l
  {
    assert Shl(norm, 64) == {};
  }

  /** Clear the high word, folding it into the low one. */
  method FoldHigh(h0: Word, l0: Word, poly: Word, k: nat) returns (l: Word)
    requires k <= 63 && (poly != {} ==> HasDegree(poly, k))
    ensures LowReduced(h0, l0, poly, l, 64)
  {
    hide HighReduced, LowReduced, HasDegree;
    var norm := Aligned(poly, k);
    var h := h0;
    l := l0;
    HighStart(h0, l0, poly);
    if TestBit(h, 63) {
      HighStep(h0, l0, poly, k, h, l, 63);
      TopStep(norm, l);
      h := Xor(h, norm);
    } else {
      HighWeaken(h0, l0, poly, h, l, 63);
    }
    var i := 62;
    while i >= 0
      invariant -1 <= i <= 62
      invariant HighReduced(h0, l0, poly, h, l, i + 1)
    {
      if TestBit(h, i) {
        HighStep(h0, l0, poly, k, h, l, i);
        h := Xor(h, Shr(norm, 63 - i));
        l := Xor(l, Shl(norm, i + 1));
      } else {
        HighWeaken(h0, l0, poly, h, l, i);
      }
      i := i - 1;
    }
    HighDone(h0, l0, poly, h, l);
  }

  /** The remainder of the 128-bit h:l modulo poly. */
  method GetFingerprint(h0: Word, l0: Word, poly: Word) returns (l: Word)
    ensures poly != {} ==> IsRemainder(Poly128(h0, l0), l, poly, Degree(poly))
    ensures poly == {} ==> l == l0
  {
    var k := GetDegree(poly);
    var norm := Aligned(poly, k);
    l := l0;
    if h0 != ZERO {
      l := FoldHigh(h0, l0, poly, k);
    } else {
      assert Poly128(h0, l0) == l0;
      CongruentRefl(l0, poly);
    }
    var i: int := 63;
    while i >= k
      invariant k <= i + 1 <= 64
      invariant LowReduced(h0, l0, poly, l, i + 1)
    {
      if TestBit(l, i) {
        LowStep(h0, l0, poly, k, l, i);
        l := Xor(l, Shr(norm, 63 - i));
      }
      i := i - 1;
    }
  }

  /** The part of x at position i and above. */
  function From(x: Poly, i: nat): (r: Poly)
    ensures forall e: nat :: e in r <==> e in x && e >= i
  {
    set e | e in x && e >= i
  }

  /** One more term of the product. */
  lemma ProductStep(x: Poly, y: Poly, i: nat, n: nat)
    requires i < n
    ensures MulUpTo(From(x, i), y, n)
            == if i in x then Add(MulUpTo(From(x, i + 1), y, n), Shift(y, i)) else MulUpTo(From(x, i + 1), y, n)
  {
    if i in x {
      assert From(x, i) == Add(From(x, i + 1), {i});
      MulUpToAdd(From(x, i + 1), {i}, y, n);
      MulUpToStable({i}, y, i + 1, n);
      MulUpToAgree({i}, {}, y, i);
      MulUpToStable({}, y, 0, i);
      assert MulUpTo({i}, y, n) == Shift(y, i);
    } else {
      assert From(x, i) == From(x, i + 1);
    }
  }

  /** The exact carry-less product of two words. */
  method MultiplyPoly(x: Word, y: Word) returns (h: Word, l: Word)
    ensures Poly128(h, l) == Mul(x, y)
  {
    h, l := ZERO, ZERO;
    if 0 in x {
      l := y;
    }
    ghost var low := l;
    var i := 63;
    MulUpToAgree(From(x, 64), {}, y, 64);
    MulUpToStable({}, y, 0, 64);
    while i > 0
      invariant 0 <= i <= 63
      invariant Poly128(h, l) == Add(MulUpTo(From(x, i + 1), y, 64), low)
    {
      ProductStep(x, y, i, 64);
      if TestBit(x, i) {
        TermSplits(h, l, y, i);
        h := Xor(h, Shr(y, 64 - i));
        l := Xor(l, Shl(y, i));
      }
      i := i - 1;
    }
    ProductStep(x, y, 0, 64);
    assert Shift(y, 0) == y;
    assert From(x, 0) == x;
    MulAtBound(x, y, 64);
  }

  /** The two halves of y shifted into a 128-bit value. */
  lemma TermSplits(h: Word, l: Word, y: Word, i: nat)
    requires 0 < i < 64
    ensures Poly128(Xor(h, Shr(y, 64 - i)), Xor(l, Shl(y, i))) == Add(Poly128(h, l), Shift(y, i))
  {
    var h', l' := Xor(h, Shr(y, 64 - i)), Xor(l, Shl(y, i));
    forall e: nat ensures e in Poly128(h', l') <==> e in Add(Poly128(h, l), Shift(y, i)) {
      if e >= 64 {
        assert e - 64 in Shr(y, 64 - i) <==> e - i in y;
      }
    }
  }
}
