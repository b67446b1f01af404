/**
 Unsigned 64-bit words.  A word is the set of positions of its one bits, so a word is also the
 polynomial with those exponents; a left shift drops the positions that leave the word, as C
 does.
 */
module Word64 {
  import opened Gf2

  type Word = w: Poly | Below(w, 64) witness {}

  const ZERO: Word := {}
  const ONE: Word := {0}

  function Xor(x: Word, y: Word): (z: Word)
    ensures z == Add(x, y)
  {
    Add(x, y)
  }

  function And(x: Word, y: Word): Word { x * y }

  function Or(x: Word, y: Word): Word { x + y }

  function Shl(x: Word, k: nat): (z: Word)
    ensures forall e: nat :: e in z <==> k <= e < 64 && e - k in x
  {
    set e | e in x && e + k < 64 :: e + k
  }

  function Shr(x: Word, k: nat): (z: Word)
    ensures forall e: nat :: e in z <==> e + k in x
  {
    set e | e in x && k <= e :: e - k
  }

  /** The C test of one bit, x & (1 << i). */
  predicate TestBit(x: Word, i: nat)
    requires i < 64
    ensures TestBit(x, i) <==> i in x
  {
    assert i in x <==> i in And(x, Shl(ONE, i));
    And(x, Shl(ONE, i)) != ZERO
  }

  /** The polynomial of the 128-bit value h:l. */
  function Poly128(h: Word, l: Word): Poly {
    Add(Shift(h, 64), l)
  }

  // ---------------------------------------------------------------- numbers and their bits

  /** The binary digits of n. */
  function BitsOf(n: nat): Poly {
    if n == 0 then {} else (if n % 2 == 1 then {0} else {}) + Shift(BitsOf(n / 2), 1)
  }

  /** The number whose binary digits below position n are those of w. */
  function Value(w: Poly, n: nat): nat
    decreases n
  {
    if n == 0 then 0 else (if 0 in w then 1 else 0) + 2 * Value(Down(w), n - 1)
  }

  /** w / x */
  function Down(w: Poly): (d: Poly)
    ensures forall e: nat :: e in d <==> e + 1 in w
  {
    set e | e in w && 1 <= e :: e - 1
  }

  function Pow2(k: nat): (p: nat)
    ensures p >= 1
  {
    if k == 0 then 1 else 2 * Pow2(k - 1)
  }

  lemma {:induction false} ValueBound(w: Poly, n: nat)
    ensures Value(w, n) < Pow2(n)
    decreases n
  {
    if n > 0 {
      ValueBound(Down(w), n - 1);
    }
  }

  lemma {:induction false} BitsOfValue(w: Poly, n: nat)
    requires Below(w, n)
    ensures BitsOf(Value(w, n)) == w
    decreases n
  {
    if n > 0 {
      BitsOfValue(Down(w), n - 1);
      var v := Value(w, n);
      var d := Value(Down(w), n - 1);
      assert v / 2 == d && v % 2 == if 0 in w then 1 else 0;
      assert BitsOf(0) == {};
      assert BitsOf(v) == (if v % 2 == 1 then {0} else {}) + Shift(BitsOf(d), 1);
      forall e: nat ensures e in BitsOf(v) <==> e in w {
        if e > 0 {
          assert e - 1 in Down(w) <==> e in w;
        }
      }
    }
  }

  lemma {:induction false} BitsOfBelow(n: nat, k: nat)
    requires n < Pow2(k)
    ensures Below(BitsOf(n), k)
    decreases k
  {
    if k > 0 && n > 0 {
      BitsOfBelow(n / 2, k - 1);
    }
  }

  /** The unsigned value of a word. */
  function Number(w: Word): nat {
    Value(w, 64)
  }

  lemma {:induction false} ValueStable(w: Poly, k: nat, n: nat)
    requires k <= n && Below(w, k)
    ensures Value(w, n) == Value(w, k)
    decreases n
  {
    if k == 0 {
      if n > 0 {
        assert Down(w) == {};
        ValueStable(Down(w), 0, n - 1);
      }
    } else {
      ValueStable(Down(w), k - 1, n - 1);
    }
  }

  lemma NumberBound(w: Word, k: nat)
    requires k <= 64 && Below(w, k)
    ensures Number(w) < Pow2(k)
    ensures BitsOf(Number(w)) == w
  {
    ValueStable(w, k, 64);
    ValueBound(w, k);
    BitsOfValue(w, 64);
  }

  lemma {:induction false} BitsOfTop(n: nat, k: nat)
    requires Pow2(k) <= n < Pow2(k + 1)
    ensures HasDegree(BitsOf(n), k)
    decreases k
  {
    BitsOfBelow(n, k + 1);
    if k > 0 {
      BitsOfTop(n / 2, k - 1);
    }
  }

  /** The word with the k lowest bits set. */
  function Ones(k: nat): (w: Poly)
    ensures forall e: nat :: e in w <==> e < k
  {
    if k == 0 then {} else Ones(k - 1) + {k - 1}
  }

  lemma OnesShift(k: nat)
    ensures {0} + Shift(Ones(k), 1) == Ones(k + 1)
  {
    var a, b := {0} + Shift(Ones(k), 1), Ones(k + 1);
    forall e: nat ensures e in a <==> e in b {
      if e > 0 {
        assert e in Shift(Ones(k), 1) <==> e - 1 in Ones(k);
      }
    }
  }

  lemma BitsOfOdd(m: nat, n: nat)
    requires m == 2 * n + 1
    ensures BitsOf(m) == {0} + Shift(BitsOf(n), 1)
  {
    assert m / 2 == n && m % 2 == 1;
  }

  lemma MaskStep(m: nat, n: nat, k: nat)
    requires m == 2 * n + 1 && BitsOf(n) == Ones(k)
    ensures BitsOf(m) == Ones(k + 1)
  {
    BitsOfOdd(m, n);
    OnesShift(k);
  }

  lemma MaskZero()
    ensures BitsOf(0) == Ones(0)
  {
  }

  /** 2^k - 1 has exactly the digits below k. */
  lemma {:induction false} BitsOfMask(k: nat)
    ensures BitsOf(Pow2(k) - 1) == Ones(k)
    decreases k
  {
    hide BitsOf, Ones;
    if k == 0 {
      MaskZero();
    } else {
      BitsOfMask(k - 1);
      MaskStep(Pow2(k) - 1, Pow2(k - 1) - 1, k - 1);
    }
  }
}
