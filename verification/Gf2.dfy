/**
 Polynomials over GF(2), the arithmetic behind Rabin fingerprints.  A polynomial is the finite
 set of exponents whose coefficient is one, so addition is symmetric difference and two
 polynomials are equal exactly when their sets are.
 */
module Gf2 {

  type Poly = set<nat>

  function Add(a: Poly, b: Poly): (r: Poly)
    ensures forall e: nat :: e in r <==> (e in a) != (e in b)
  {
    (a - b) + (b - a)
  }

  /** a * x^k */
  function Shift(a: Poly, k: nat): (r: Poly)
    ensures forall e: nat :: e in r <==> e >= k && e - k in a
  {
    set e | e in a :: e + k
  }

  /** Every exponent of a is below n: the degree of a is less than n. */
  ghost predicate Below(a: Poly, n: nat) {
    forall e :: e in a ==> e < n
  }

  /** p has degree exactly k. */
  ghost predicate HasDegree(p: Poly, k: nat) {
    k in p && Below(p, k + 1)
  }

  /** (the part of q below x^n) * p */
  ghost function MulUpTo(q: Poly, p: Poly, n: nat): Poly {
    if n == 0 then {}
    else if n - 1 in q then Add(MulUpTo(q, p, n - 1), Shift(p, n - 1))
    else MulUpTo(q, p, n - 1)
  }

  /** One more than the largest exponent; zero for the zero polynomial. */
  ghost function Bound(a: Poly): (n: nat)
    ensures Below(a, n)
    ensures a != {} ==> n > 0 && n - 1 in a
  {
    if a == {} then 0 else MaxExists(a); (var m :| m in a && forall e :: e in a ==> e <= m; m + 1)
  }

  ghost function Mul(q: Poly, p: Poly): Poly {
    MulUpTo(q, p, Bound(q))
  }

  /** a and b differ by a multiple of p. */
  ghost predicate Congruent(a: Poly, b: Poly, p: Poly) {
    exists q: Poly :: Add(a, b) == Mul(q, p)
  }

  /** r is a remainder of a modulo p, a polynomial of degree k. */
  ghost predicate IsRemainder(a: Poly, r: Poly, p: Poly, k: nat) {
    Below(r, k) && Congruent(a, r, p)
  }

  lemma MaxExists(a: Poly)
    requires a != {}
    ensures exists m :: m in a && forall e :: e in a ==> e <= m
  {
    var x :| x in a;
    var rest := a - {x};
    assert forall e :: e in a <==> e == x || e in rest;
    if rest == {} {
      assert forall e :: e in a ==> e <= x;
    } else {
      MaxExists(rest);
      var m :| m in rest && forall e :: e in rest ==> e <= m;
      assert forall e :: e in a ==> e <= if x > m then x else m;
    }
  }

  // ---------------------------------------------------------------- multiplication is linear

  lemma {:induction false} MulUpToStable(q: Poly, p: Poly, n: nat, m: nat)
    requires n <= m && Below(q, n)
    ensures MulUpTo(q, p, m) == MulUpTo(q, p, n)
  {
    if n < m {
      MulUpToStable(q, p, n, m - 1);
    }
  }

  lemma {:induction false} MulUpToAdd(a: Poly, b: Poly, p: Poly, n: nat)
    ensures MulUpTo(Add(a, b), p, n) == Add(MulUpTo(a, p, n), MulUpTo(b, p, n))
  {
    if n > 0 {
      MulUpToAdd(a, b, p, n - 1);
    }
  }

  lemma {:induction false} MulUpToShift(a: Poly, p: Poly, k: nat, n: nat)
    ensures MulUpTo(Shift(a, k), p, n + k) == Shift(MulUpTo(a, p, n), k)
  {
    if n > 0 {
      MulUpToShift(a, p, k, n - 1);
      assert Shift(p, n + k - 1) == Shift(Shift(p, n - 1), k);
    } else if k > 0 {
      NothingBelowShift(a, p, k, k);
    }
  }

  lemma {:induction false} NothingBelowShift(a: Poly, p: Poly, k: nat, n: nat)
    requires n <= k
    ensures MulUpTo(Shift(a, k), p, n) == {}
  {
    if n > 0 {
      NothingBelowShift(a, p, k, n - 1);
    }
  }

  /** Multiplying by a monomial is shifting. */
  lemma {:induction false} MulUpToMonomial(q: Poly, k: nat, n: nat)
    requires Below(q, n)
    ensures MulUpTo(q, {k}, n) == Shift(q, k)
    decreases n
  {
    if n > 0 {
      var rest := q - {n - 1};
      MulUpToMonomial(rest, k, n - 1);
      MulUpToAgree(q, rest, {k}, n - 1);
    }
  }

  lemma {:induction false} MulUpToAgree(q: Poly, r: Poly, p: Poly, n: nat)
    requires forall e: nat :: e < n ==> (e in q <==> e in r)
    ensures MulUpTo(q, p, n) == MulUpTo(r, p, n)
  {
    if n > 0 {
      MulUpToAgree(q, r, p, n - 1);
    }
  }

  /** Any bound on q gives the product. */
  lemma MulAtBound(q: Poly, p: Poly, n: nat)
    requires Below(q, n)
    ensures Mul(q, p) == MulUpTo(q, p, n)
  {
    assert Bound(q) <= n;
    MulUpToStable(q, p, Bound(q), n);
  }

  // ---------------------------------------------------------------- congruence

  lemma CongruentRefl(a: Poly, p: Poly)
    ensures Congruent(a, a, p)
  {
    MulAtBound({}, p, 0);
    assert Add(a, a) == Mul({}, p);
  }

  lemma CongruentSym(a: Poly, b: Poly, p: Poly)
    requires Congruent(a, b, p)
    ensures Congruent(b, a, p)
  {
    assert Add(a, b) == Add(b, a);
  }

  lemma AddSwap(a: Poly, b: Poly, c: Poly, d: Poly)
    ensures Add(Add(a, c), Add(b, d)) == Add(Add(a, b), Add(c, d))
  {
  }

  lemma CongruentAdd(a: Poly, b: Poly, c: Poly, d: Poly, p: Poly)
    requires Congruent(a, b, p) && Congruent(c, d, p)
    ensures Congruent(Add(a, c), Add(b, d), p)
  {
    var q: Poly :| Add(a, b) == Mul(q, p);
    var r: Poly :| Add(c, d) == Mul(r, p);
    var n := Bound(q) + Bound(r);
    MulAtBound(q, p, n);
    MulAtBound(r, p, n);
    MulAtBound(Add(q, r), p, n);
    MulUpToAdd(q, r, p, n);
    AddSwap(a, b, c, d);
  }

  lemma CongruentTrans(a: Poly, b: Poly, c: Poly, p: Poly)
    requires Congruent(a, b, p) && Congruent(b, c, p)
    ensures Congruent(a, c, p)
  {
    CongruentAdd(a, b, b, c, p);
    assert Add(Add(a, b), Add(b, c)) == Add(a, c);
  }

  lemma CongruentShift(a: Poly, b: Poly, k: nat, p: Poly)
    requires Congruent(a, b, p)
    ensures Congruent(Shift(a, k), Shift(b, k), p)
  {
    var q: Poly :| Add(a, b) == Mul(q, p);
    MulAtBound(Shift(q, k), p, Bound(q) + k);
    MulUpToShift(q, p, k, Bound(q));
    assert Add(Shift(a, k), Shift(b, k)) == Shift(Add(a, b), k) == Mul(Shift(q, k), p);
  }

  /** Adding a shifted copy of the modulus stays in the same class. */
  lemma CongruentModulus(a: Poly, k: nat, p: Poly)
    ensures Congruent(a, Add(a, Shift(p, k)), p)
  {
    var q: Poly := {k};
    MulAtBound(q, p, k + 1);
    MulUpToAgree(q, {}, p, k);
    MulUpToStable({}, p, 0, k);
    assert Add(a, Add(a, Shift(p, k))) == Shift(p, k) == Mul(q, p);
  }

  /** Equal polynomials times congruent ones. */
  lemma {:induction false} CongruentMul(q: Poly, a: Poly, b: Poly, p: Poly, n: nat)
    requires Congruent(a, b, p)
    ensures Congruent(MulUpTo(q, a, n), MulUpTo(q, b, n), p)
  {
    if n == 0 {
      CongruentRefl({}, p);
    } else {
      CongruentMul(q, a, b, p, n - 1);
      if n - 1 in q {
        CongruentShift(a, b, n - 1, p);
        CongruentAdd(MulUpTo(q, a, n - 1), MulUpTo(q, b, n - 1), Shift(a, n - 1), Shift(b, n - 1), p);
      }
    }
  }

  // ---------------------------------------------------------------- remainders

  /** A multiple of p is zero or has an exponent at least the degree of p. */
  lemma {:induction false} MultipleIsLarge(q: Poly, p: Poly, k: nat, n: nat)
    requires HasDegree(p, k)
    ensures Below(MulUpTo(q, p, n), n + k)
    ensures MulUpTo(q, p, n) == {} || !Below(MulUpTo(q, p, n), k)
  {
    if n > 0 {
      MultipleIsLarge(q, p, k, n - 1);
      if n - 1 in q {
        assert n - 1 + k in MulUpTo(q, p, n);
      }
    }
  }

  /** A polynomial has at most one remainder. */
  lemma RemainderUnique(a: Poly, r: Poly, s: Poly, p: Poly, k: nat)
    requires HasDegree(p, k) && IsRemainder(a, r, p, k) && IsRemainder(a, s, p, k)
    ensures r == s
  {
    CongruentSym(a, r, p);
    CongruentTrans(r, a, s, p);
    var q: Poly :| Add(r, s) == Mul(q, p);
    MultipleIsLarge(q, p, k, Bound(q));
    assert Add(r, s) == {};
    forall e: nat ensures e in r <==> e in s {
      assert e !in Add(r, s);
    }
  }

  /** Long division of a, which has no exponent at n or above. */
  ghost function Divide(a: Poly, p: Poly, k: nat, n: nat): Poly
    decreases n
  {
    if n <= k then a
    else if n - 1 in a then Divide(Add(a, Shift(p, n - 1 - k)), p, k, n - 1)
    else Divide(a, p, k, n - 1)
  }

  /** The remainder of a modulo p, a polynomial of degree k. */
  ghost function Rem(a: Poly, p: Poly, k: nat): Poly {
    Divide(a, p, k, Bound(a))
  }

  lemma {:induction false} DivideIsRemainder(a: Poly, p: Poly, k: nat, n: nat)
    requires HasDegree(p, k) && Below(a, n)
    ensures IsRemainder(a, Divide(a, p, k, n), p, k)
    decreases n
  {
    if n <= k {
      CongruentRefl(a, p);
    } else if n - 1 in a {
      var b := Add(a, Shift(p, n - 1 - k));
      DivideIsRemainder(b, p, k, n - 1);
      CongruentModulus(a, n - 1 - k, p);
      CongruentTrans(a, b, Divide(b, p, k, n - 1), p);
    } else {
      DivideIsRemainder(a, p, k, n - 1);
    }
  }

  /** Every polynomial has exactly one remainder, and long division finds it. */
  lemma RemUnique(a: Poly, r: Poly, p: Poly, k: nat)
    requires HasDegree(p, k)
    ensures IsRemainder(a, r, p, k) <==> r == Rem(a, p, k)
  {
    DivideIsRemainder(a, p, k, Bound(a));
    if IsRemainder(a, r, p, k) {
      RemainderUnique(a, r, Rem(a, p, k), p, k);
    }
  }
}
