/**
 The packed least-recently-used clocks of a HashCache index set (HashCache/src/index.c, the variant
 with a full index).  All ways of a set keep their ages in one 64-bit word.
 */
module Clocks {
  import opened Arith
  import opened Gf2
  import opened Word64

  // ---------------------------------------------------------------- fields of a word

  /** The mask selects the k bits from position s on. */
  ghost predicate IsField(mask: Word, s: nat, k: nat) {
    s + k <= 64 && forall e: nat :: e in mask <==> s <= e < s + k
  }

  function GetField(l: Word, mask: Word, s: nat): nat {
    Number(Shr(And(l, mask), s))
  }

  /** The exclusive-or trick of setInteger. */
  function SetField(l: Word, mask: Word, s: nat, v: nat): Word
    requires Below(BitsOf(v), 64)
  {
    var n := Shl(BitsOf(v), s);
    var t := And(Xor(l, n), mask);
    Xor(l, t)
  }

  lemma {:induction false} ValueOfBits(v: nat, n: nat)
    requires v < Pow2(n)
    ensures Value(BitsOf(v), n) == v
    decreases n
  {
    if n > 0 {
      ValueOfBits(v / 2, n - 1);
      DownBits(v);
    }
  }

  lemma DownBits(v: nat)
    ensures Down(BitsOf(v)) == BitsOf(v / 2) && (0 in BitsOf(v) <==> v % 2 == 1)
  {
    assert BitsOf(0) == {};
    var d, h := Down(BitsOf(v)), BitsOf(v / 2);
    forall e: nat ensures e in d <==> e in h {
      assert e + 1 in BitsOf(v) <==> e + 1 in Shift(BitsOf(v / 2), 1);
    }
  }

  lemma SmallBits(v: nat, k: nat)
    requires k <= 64 && v < Pow2(k)
    ensures Below(BitsOf(v), 64) && Below(BitsOf(v), k)
  {
    BitsOfBelow(v, k);
  }

  /** Inside the field the bits are those of v, outside they are unchanged. */
  lemma SetBits(l: Word, mask: Word, s: nat, k: nat, v: nat)
    requires IsField(mask, s, k) && Below(BitsOf(v), 64)
    ensures forall e: nat :: e in SetField(l, mask, s, v) <==> if s <= e < s + k then e - s in BitsOf(v) else e in l
  {
  }

  lemma GetSet(l: Word, mask: Word, s: nat, k: nat, v: nat)
    requires IsField(mask, s, k) && v < Pow2(k) && Below(BitsOf(v), 64)
    ensures GetField(SetField(l, mask, s, v), mask, s) == v
  {
    hide BitsOf, SetField;
    SetBits(l, mask, s, k, v);
    SmallBits(v, k);
    var x := Shr(And(SetField(l, mask, s, v), mask), s);
    forall e: nat ensures e in x <==> e in BitsOf(v) {
    }
    assert x == BitsOf(v);
    ValueStable(x, k, 64);
    ValueOfBits(v, k);
  }

  lemma GetOther(l: Word, m: Word, s: nat, v: nat, n: Word, t: nat, k: nat)
    requires IsField(m, s, k) && IsField(n, t, k) && (s + k <= t || t + k <= s) && Below(BitsOf(v), 64)
    ensures GetField(SetField(l, m, s, v), n, t) == GetField(l, n, t)
  {
    hide BitsOf, SetField;
    SetBits(l, m, s, k, v);
    assert And(SetField(l, m, s, v), n) == And(l, n);
  }

  // ---------------------------------------------------------------- ages

  /** The ages are a permutation of the numbers below n. */
  ghost predicate IsPermutation(a: seq<nat>, n: nat) {
    |a| == n && (forall i :: 0 <= i < n ==> a[i] < n) && (forall i, j :: 0 <= i < j < n ==> a[i] != a[j])
  }

  /** b is a with way m made the oldest or youngest: the others keep their order. */
  ghost predicate Moved(a: seq<nat>, b: seq<nat>, m: nat, age: nat) {
    && |a| == |b| && m < |a| && b[m] == age
    && forall i, j :: 0 <= i < |a| && 0 <= j < |a| && i != m && j != m ==> (a[i] < a[j] <==> b[i] < b[j])
  }

  /** The new age of a way when the way of age cut becomes the most recent of n. */
  function Younger(a: nat, cut: nat, n: nat): nat {
    if a > cut then a - 1 else if a == cut then (if n > 0 then n - 1 else 0) else a
  }

  /** The new age of a way when the way of age cut becomes the least recent. */
  function Older(a: nat, cut: nat): nat {
    if a < cut then a + 1 else if a == cut then 0 else a
  }

  lemma YoungerPermutes(a: seq<nat>, b: seq<nat>, m: nat, n: nat)
    requires IsPermutation(a, n) && m < n && |b| == n && forall i :: 0 <= i < n ==> b[i] == Younger(a[i], a[m], n)
    ensures IsPermutation(b, n) && Moved(a, b, m, n - 1)
  {
  }

  lemma OlderPermutes(a: seq<nat>, b: seq<nat>, m: nat, n: nat)
    requires IsPermutation(a, n) && m < n && |b| == n && forall i :: 0 <= i < n ==> b[i] == Older(a[i], a[m])
    ensures IsPermutation(b, n) && Moved(a, b, m, 0)
  {
  }

  /** The first i ways have their new ages. */
  ghost predicate YoungerTo(a: seq<nat>, b: seq<nat>, cut: nat, n: nat, i: nat) {
    |b| == |a| && forall k :: 0 <= k < |a| ==> b[k] == if k < i then Younger(a[k], cut, n) else a[k]
  }

  lemma YoungerStart(a: seq<nat>, cut: nat, n: nat)
    ensures YoungerTo(a, a, cut, n, 0)
  {
  }

  lemma YoungerNext(a: seq<nat>, b: seq<nat>, cut: nat, n: nat, i: nat)
    requires YoungerTo(a, b, cut, n, i) && i < |a|
    ensures |b| == |a| && b[i] == a[i] && YoungerTo(a, b[i := Younger(a[i], cut, n)], cut, n, i + 1)
    ensures b[i := b[i]] == b
  {
  }

  lemma YoungerEnd(a: seq<nat>, b: seq<nat>, cut: nat, n: nat)
    requires YoungerTo(a, b, cut, n, |a|)
    ensures |b| == |a| && forall k :: 0 <= k < |a| ==> b[k] == Younger(a[k], cut, n)
  {
  }

  ghost predicate OlderTo(a: seq<nat>, b: seq<nat>, cut: nat, i: nat) {
    |b| == |a| && forall k :: 0 <= k < |a| ==> b[k] == if k < i then Older(a[k], cut) else a[k]
  }

  lemma OlderNext(a: seq<nat>, b: seq<nat>, cut: nat, i: nat)
    requires OlderTo(a, b, cut, i) && i < |a|
    ensures |b| == |a| && b[i] == a[i] && OlderTo(a, b[i := Older(a[i], cut)], cut, i + 1) && b[i := b[i]] == b
  {
  }

  // ---------------------------------------------------------------- the layout

  datatype Layout = Layout(lways: nat, shifts: seq<nat>, masks: seq<Word>) {
    ghost predicate Valid() {
      && |shifts| == |masks| == Pow2(lways)
      && (forall i :: 0 <= i < |shifts| ==> IsField(masks[i], shifts[i], lways))
      && (forall i, j :: 0 <= i < j < |shifts| ==> shifts[j] + lways <= shifts[i])
    }

    function Get(l: Word, i: nat): nat
      requires i < |shifts| && i < |masks|
    {
      GetField(l, masks[i], shifts[i])
    }

    function Set(l: Word, i: nat, v: nat): Word
      requires i < |shifts| && i < |masks| && Below(BitsOf(v), 64)
    {
      SetField(l, masks[i], shifts[i], v)
    }

    ghost function Ages(l: Word): (a: seq<nat>)
      requires |shifts| == |masks|
      ensures |a| == |shifts| && forall i :: 0 <= i < |a| ==> a[i] == Get(l, i)
    {
      seq(|shifts|, i requires 0 <= i < |shifts| => Get(l, i))
    }

    /** The words agree outside the fields. */
    ghost predicate SameOutside(l: Word, k: Word) {
      forall e: nat :: (forall i :: 0 <= i < |masks| ==> e !in masks[i]) ==> (e in l <==> e in k)
    }
  }

  lemma FieldOf(y: Layout, i: nat)
    requires y.Valid() && i < |y.shifts|
    ensures |y.masks| == |y.shifts| == Pow2(y.lways) && y.lways <= 64 && IsField(y.masks[i], y.shifts[i], y.lways)
  {
    assert IsField(y.masks[i], y.shifts[i], y.lways);
  }

  /** Setting a field changes that field and nothing else. */
  lemma SetLayout(y: Layout, l: Word, i: nat, v: nat)
    requires y.Valid() && i < |y.shifts| && v < Pow2(y.lways)
    ensures |y.masks| == |y.shifts| && Below(BitsOf(v), 64)
    ensures y.Ages(y.Set(l, i, v)) == y.Ages(l)[i := v] && y.SameOutside(l, y.Set(l, i, v))
  {
    hide GetField, SetField, BitsOf;
    FieldOf(y, i);
    SmallBits(v, y.lways);
    var k := y.Set(l, i, v);
    var a, b := y.Ages(l), y.Ages(k);
    forall j | 0 <= j < |a| ensures b[j] == a[i := v][j] {
      FieldOf(y, j);
      if j == i {
        GetSet(l, y.masks[i], y.shifts[i], y.lways, v);
      } else {
        GetOther(l, y.masks[i], y.shifts[i], v, y.masks[j], y.shifts[j], y.lways);
      }
    }
    SetBits(l, y.masks[i], y.shifts[i], y.lways, v);
  }

  lemma SameOutsideTwice(y: Layout, a: Word, b: Word, c: Word)
    requires y.SameOutside(a, b) && y.SameOutside(b, c)
    ensures y.SameOutside(a, c)
  {
  }

  // ---------------------------------------------------------------- setting up

  /** The first mask: WAYS - 1 shifted to the top field. */
  lemma FirstMask(lways: nat, s: nat)
    requires s + lways <= 64
    ensures Below(BitsOf(Pow2(lways) - 1), 64) && IsField(Shl(BitsOf(Pow2(lways) - 1), s), s, lways)
  {
    hide BitsOf;
    BitsOfMask(lways);
  }

  lemma NextMask(m: Word, s: nat, k: nat)
    requires IsField(m, s, k) && k <= s
    ensures IsField(Shr(m, k), s - k, k)
  {
  }

  /** The first n fields, from the top of the word down. */
  ghost predicate LaidOut(shifts: seq<nat>, masks: seq<Word>, lways: nat, ways: nat, n: nat) {
    && |shifts| == |masks| == n <= ways
    && forall i :: 0 <= i < n ==> shifts[i] == lways * (ways - 1 - i) && IsField(masks[i], shifts[i], lways)
  }

  lemma LaidOutValid(shifts: seq<nat>, masks: seq<Word>, lways: nat, ways: nat)
    requires LaidOut(shifts, masks, lways, ways, ways) && ways == Pow2(lways)
    ensures Layout(lways, shifts, masks).Valid()
  {
    forall i, j | 0 <= i < j < ways ensures shifts[j] + lways <= shifts[i] {
      MulLess(lways, ways - 1 - j, ways - 1 - i);
    }
  }

  /** Shifts and masks of all ways. */
  method InitClocks(lways: nat) returns (y: Layout)
    requires lways * Pow2(lways) <= 64
    ensures y.Valid() && y.lways == lways
  {
    hide Pow2, IsField, BitsOf;
    var ways := Pow2(lways);
    var s := lways * (ways - 1);
    assert lways * ways == s + lways;
    FirstMask(lways, s);
    var shifts: seq<nat>, masks: seq<Word> := [s], [Shl(BitsOf(ways - 1), s)];
    for i := 1 to ways
      invariant LaidOut(shifts, masks, lways, ways, i)
    {
      MulLess(lways, ways - 1 - i, ways - i);
      assert lways * (ways - i) == lways * (ways - 1 - i) + lways;
      NextMask(masks[i - 1], shifts[i - 1], lways);
      shifts, masks := shifts + [shifts[i - 1] - lways], masks + [Shr(masks[i - 1], lways)];
    }
    LaidOutValid(shifts, masks, lways, ways);
    y := Layout(lways, shifts, masks);
  }

  // ---------------------------------------------------------------- a set of the index

  class SetHeader {
    const y: Layout
    var clocks: Word
    var headers: seq<int>

    ghost predicate Valid()
      reads this
    {
      y.Valid() && |headers| == |y.shifts| && IsPermutation(y.Ages(clocks), |y.shifts|)
    }

    /** Way j starts with age j; whatever else the word holds is kept. */
    constructor (y: Layout, word: Word)
      requires y.Valid()
      ensures Valid() && this.y == y && headers == seq(|y.shifts|, _ => 0) && y.SameOutside(word, clocks)
      ensures forall j :: 0 <= j < |y.shifts| ==> y.Ages(clocks)[j] == j
    {
      hide Layout.Valid, Layout.Set, Layout.Get, Layout.SameOutside;
      var l := word;
      LayoutSize(y);
      SameOutsideStart(y, word);
      for j := 0 to |y.shifts|
        invariant y.SameOutside(word, l) && forall k :: 0 <= k < j ==> y.Ages(l)[k] == k
      {
        SetLayout(y, l, j, j);
        SameOutsideTwice(y, word, l, y.Set(l, j, j));
        l := y.Set(l, j, j);
      }
      this.y, clocks := y, l;
      headers := seq(|y.shifts|, _ => 0);
    }

    /** Make way match the most recent. */
    method UpdateClocks(match_: nat)
      requires Valid() && match_ < |y.shifts|
      modifies this`clocks
      ensures Valid() && Moved(y.Ages(old(clocks)), y.Ages(clocks), match_, |y.shifts| - 1)
      ensures y.SameOutside(old(clocks), clocks)
    {
      hide Layout.Valid, Layout.Set, Layout.SameOutside, Layout.Get, YoungerTo;
      LayoutSize(y);
      ghost var was := clocks;
      ghost var a := y.Ages(was);
      var ways := |y.shifts|;
      var cut := y.Get(clocks, match_);
      assert cut == a[match_];
      SameOutsideStart(y, was);
      YoungerStart(a, cut, ways);
      if cut == ways - 1 {
        YoungerPermutes(a, a, match_, ways);
        return;
      }
      for i := 0 to ways
        invariant y.SameOutside(was, clocks) && YoungerTo(a, y.Ages(clocks), cut, ways, i)
      {
        var present := y.Get(clocks, i);
        ghost var age := Younger(present, cut, ways);
        YoungerNext(a, y.Ages(clocks), cut, ways, i);
        assert age == if present > cut then present - 1 else if present == cut then ways - 1 else present;
        SetLayout(y, clocks, i, age);
        SameOutsideTwice(y, was, clocks, y.Set(clocks, i, age));
        if present > cut {
          clocks := y.Set(clocks, i, present - 1);
        } else if present == cut {
          clocks := y.Set(clocks, i, ways - 1);
        }
      }
      YoungerEnd(a, y.Ages(clocks), cut, ways);
      YoungerPermutes(a, y.Ages(clocks), match_, ways);
    }

    /** Drop way match and make it the least recent; the least recent way is left as it is. */
    method DiscardHeaders(match_: nat)
      requires Valid() && match_ < |y.shifts|
      modifies this`clocks, this`headers
      ensures Valid() && Moved(y.Ages(old(clocks)), y.Ages(clocks), match_, 0) && y.SameOutside(old(clocks), clocks)
      ensures headers == if y.Ages(old(clocks))[match_] == 0 then old(headers) else old(headers)[match_ := -1]
    {
      hide Layout.Valid, Layout.Set, Layout.SameOutside, Layout.Get;
      LayoutSize(y);
      ghost var was := clocks;
      ghost var a := y.Ages(was);
      var ways := |y.shifts|;
      var cut := y.Get(clocks, match_);
      assert cut == a[match_];
      SameOutsideStart(y, was);
      if cut == 0 {
        OlderPermutes(a, a, match_, ways);
        return;
      }
      headers := headers[match_ := -1];
      for i := 0 to ways
        invariant y.SameOutside(was, clocks) && headers == old(headers)[match_ := -1]
        invariant OlderTo(a, y.Ages(clocks), cut, i)
      {
        var present := y.Get(clocks, i);
        ghost var age := Older(present, cut);
        OlderNext(a, y.Ages(clocks), cut, i);
        SetLayout(y, clocks, i, age);
        SameOutsideTwice(y, was, clocks, y.Set(clocks, i, age));
        if present < cut {
          clocks := y.Set(clocks, i, present + 1);
        } else if present == cut {
          clocks := y.Set(clocks, i, 0);
        }
      }
      OlderPermutes(a, y.Ages(clocks), match_, ways);
    }
  }

  lemma LayoutSize(y: Layout)
    requires y.Valid()
    ensures |y.masks| == |y.shifts| == Pow2(y.lways) && |y.shifts| >= 1
  {
  }

  lemma SameOutsideStart(y: Layout, l: Word)
    ensures y.SameOutside(l, l)
  {
  }
}
