/** The chunk tree on the flat name array (MakeTree, waprox/mrc_tree.c). */
module MrcTree {
  import opened ChunkNames
  import opened Levels
  import opened PreMrc

  /** Level l occupies info's part of the array and tiles the block. */
  ghost predicate Level(names: seq<OneChunkName>, info: PerLevelInfo, l: nat, total: nat) {
    && info.numNames > 0 && info.Next() <= |names|
    && names[info.firstIndex].offset == 0 && names[info.Next() - 1].End() == total
    && (forall j :: info.Has(j) ==> names[j].length > 0 && names[j].level == l && names[j].index == j)
    && (forall i, j :: info.Has(i) && info.Has(j) && j == i + 1 ==> names[j].offset == names[i].End())
  }

  /** Name c of the lower level ends where name j of the upper one does. */
  ghost predicate EndsBelow(names: seq<OneChunkName>, lower: PerLevelInfo, j: nat)
    requires j < |names| && lower.Next() <= |names|
  {
    exists c :: lower.Has(c) && names[c].End() == names[j].End()
  }

  /** Consecutive levels: contiguous, the lower one refining the upper one. */
  ghost predicate Pair(names: seq<OneChunkName>, upper: PerLevelInfo, lower: PerLevelInfo) {
    && upper.Next() == lower.firstIndex && lower.Next() <= |names|
    && forall j :: upper.Has(j) ==> EndsBelow(names, lower, j)
  }

  /** All levels, root first. */
  ghost predicate Levelled(names: seq<OneChunkName>, pli: seq<PerLevelInfo>, total: nat) {
    && pli != [] && pli[0] == PerLevelInfo(1, 0) && pli[|pli| - 1].Next() == |names|
    && (forall l :: 0 <= l < |pli| ==> Level(names, pli[l], l, total))
    && (forall k, l :: 0 <= k < l < |pli| && l == k + 1 ==> Pair(names, pli[k], pli[l]))
  }

  /** The parent of a name; the root is its own (GetParent2). */
  function Parent(names: seq<OneChunkName>, i: nat): int
    requires i < |names|
  {
    if i == 0 then 0 else names[i].parentIdx
  }

  predicate Inside(child: OneChunkName, parent: OneChunkName) {
    parent.offset <= child.offset && child.End() <= parent.End()
  }

  /** Every name of the lower level lies inside its parent, a name of the upper level. */
  ghost predicate Parented(names: seq<OneChunkName>, upper: PerLevelInfo, lower: PerLevelInfo) {
    upper.Next() <= |names| && lower.Next() <= |names|
    && forall j :: lower.Has(j) ==>
         names[j].parentIdx >= 0 && upper.Has(names[j].parentIdx) && Inside(names[j], names[names[j].parentIdx])
  }

  ghost predicate Tree(names: seq<OneChunkName>, pli: seq<PerLevelInfo>, total: nat) {
    && Levelled(names, pli, total)
    && (forall k, l :: 0 <= k < l < |pli| && l == k + 1 ==> Parented(names, pli[k], pli[l]))
  }

  /** The fields that place a name in the block are the same. */
  ghost predicate SamePlace(a: OneChunkName, b: OneChunkName) {
    a.length == b.length && a.offset == b.offset && a.level == b.level && a.index == b.index && a.pChunk == b.pChunk
  }

  ghost predicate SameShape(a: seq<OneChunkName>, b: seq<OneChunkName>) {
    |a| == |b| && forall j :: 0 <= j < |a| ==> SamePlace(a[j], b[j])
  }

  /** The names differ at most in their parents. */
  ghost predicate OnlyParents(a: seq<OneChunkName>, b: seq<OneChunkName>) {
    |a| == |b| && forall j {:trigger b[j]} :: 0 <= j < |a| ==> b[j] == a[j].(parentIdx := b[j].parentIdx)
  }

  // ---------------------------------------------------------------- tilings

  lemma {:induction false} TileOrder(names: seq<OneChunkName>, info: PerLevelInfo, l: nat, total: nat, i: nat, j: nat)
    requires Level(names, info, l, total) && info.Has(i) && info.Has(j) && i < j
    ensures names[i].End() <= names[j].offset
    decreases j
  {
    if i < j - 1 {
      TileOrder(names, info, l, total, i, j - 1);
    }
  }

  /** Names of one level that share a byte are the same name. */
  lemma TileDisjoint(names: seq<OneChunkName>, info: PerLevelInfo, l: nat, total: nat, i: nat, j: nat, p: nat)
    requires Level(names, info, l, total) && info.Has(i) && info.Has(j)
    requires names[i].offset <= p < names[i].End() && names[j].offset <= p < names[j].End()
    ensures i == j
  {
    if i < j {
      TileOrder(names, info, l, total, i, j);
    } else if j < i {
      TileOrder(names, info, l, total, j, i);
    }
  }

  lemma TileBound(names: seq<OneChunkName>, info: PerLevelInfo, l: nat, total: nat, i: nat)
    requires Level(names, info, l, total) && info.Has(i)
    ensures names[i].End() <= total
  {
    if i < info.Next() - 1 {
      TileOrder(names, info, l, total, i, info.Next() - 1);
    }
  }

  /** Every byte of the block lies in a name of the level. */
  lemma {:induction false} TileFind(names: seq<OneChunkName>, info: PerLevelInfo, l: nat, total: nat, p: nat, last: nat)
    returns (j: nat)
    requires Level(names, info, l, total) && info.Has(last) && p < names[last].End()
    ensures info.Has(j) && j <= last && names[j].offset <= p < names[j].End()
    decreases last
  {
    if p >= names[last].offset {
      j := last;
    } else {
      assert last > info.firstIndex;
      j := TileFind(names, info, l, total, p, last - 1);
    }
  }

  /** The parent is the only name of the upper level that contains the child. */
  lemma ParentUnique(names: seq<OneChunkName>, upper: PerLevelInfo, lower: PerLevelInfo, l: nat, total: nat, j: nat,
                     q: nat)
    requires Level(names, upper, l, total) && Level(names, lower, l + 1, total) && Parented(names, upper, lower)
    requires lower.Has(j) && upper.Has(q) && Inside(names[j], names[q])
    ensures q == names[j].parentIdx
  {
    TileDisjoint(names, upper, l, total, names[j].parentIdx, q, names[j].offset);
  }

  /** Every index belongs to a level. */
  lemma {:induction false} LevelOfIndex(g: seq<OneChunkName>, pli: seq<PerLevelInfo>, total: nat, i: nat, n: nat)
    returns (l: nat)
    requires Levelled(g, pli, total) && n < |pli| && i < pli[n].Next()
    ensures l <= n && pli[l].Has(i)
    decreases n
  {
    if i >= pli[n].firstIndex {
      l := n;
    } else {
      assert Pair(g, pli[n - 1], pli[n]);
      l := LevelOfIndex(g, pli, total, i, n - 1);
    }
  }

  // ---------------------------------------------------------------- from slices to indices

  lemma LevelFlat(names: seq<OneChunkName>, info: PerLevelInfo, l: nat, total: nat)
    requires GoodLevel(names, info, l, total)
    ensures Level(names, info, l, total)
  {
    var s := Slice(names, info);
    forall j | info.Has(j) ensures names[j] == s[j - info.firstIndex] {
    }
    assert |s| == info.numNames;
    forall i, j | info.Has(i) && info.Has(j) && j == i + 1 ensures names[j].offset == names[i].End() {
      assert s[j - info.firstIndex].offset == s[i - info.firstIndex].End();
    }
  }

  lemma PairFlat(names: seq<OneChunkName>, upper: PerLevelInfo, lower: PerLevelInfo)
    requires Linked(names, upper, lower)
    ensures Pair(names, upper, lower)
  {
    var s, t := Slice(names, upper), Slice(names, lower);
    forall j | upper.Has(j) ensures EndsBelow(names, lower, j) {
      assert names[j] == s[j - upper.firstIndex];
      assert EndsAt(t, s[j - upper.firstIndex].End());
      var c :| 0 <= c < |t| && t[c].End() == names[j].End();
      assert lower.Has(lower.firstIndex + c) && names[lower.firstIndex + c] == t[c];
    }
  }

  lemma ForestLevelled(names: seq<OneChunkName>, pli: seq<PerLevelInfo>, total: nat)
    requires Forest(names, pli, total) && pli != [] && pli[0] == PerLevelInfo(1, 0)
    ensures Levelled(names, pli, total)
  {
    forall l | 0 <= l < |pli| ensures Level(names, pli[l], l, total) {
      LevelFlat(names, pli[l], l, total);
    }
    forall k, l | 0 <= k < l < |pli| && l == k + 1 ensures Pair(names, pli[k], pli[l]) {
      PairFlat(names, pli[k], pli[l]);
    }
  }

  lemma LevelledSame(a: seq<OneChunkName>, b: seq<OneChunkName>, pli: seq<PerLevelInfo>, total: nat)
    requires Levelled(a, pli, total) && SameShape(a, b)
    ensures Levelled(b, pli, total)
  {
    forall l | 0 <= l < |pli| ensures Level(b, pli[l], l, total) {
      assert Level(a, pli[l], l, total);
    }
    forall k, l | 0 <= k < l < |pli| && l == k + 1 ensures Pair(b, pli[k], pli[l]) {
      PairSame(a, b, pli[k], pli[l]);
    }
  }

  lemma PairSame(a: seq<OneChunkName>, b: seq<OneChunkName>, upper: PerLevelInfo, lower: PerLevelInfo)
    requires Pair(a, upper, lower) && SameShape(a, b)
    ensures Pair(b, upper, lower)
  {
    forall j | upper.Has(j) ensures EndsBelow(b, lower, j) {
      assert EndsBelow(a, lower, j);
      var c :| lower.Has(c) && a[c].End() == a[j].End();
      assert b[c].End() == b[j].End();
    }
  }

  // ---------------------------------------------------------------- the program

  /** Where index k of a level starts, or the end of the block. */
  ghost function StartOf(names: seq<OneChunkName>, info: PerLevelInfo, total: nat, k: int): nat
    requires info.firstIndex <= k <= info.Next() <= |names|
  {
    if k < info.Next() then names[k].offset else total
  }

  /** The first names of the lower level, up to index n, have their parents. */
  ghost predicate ParentedTo(names: seq<OneChunkName>, upper: PerLevelInfo, lower: PerLevelInfo, n: int) {
    && upper.Next() <= |names| && lower.Next() <= |names|
    && forall j :: lower.Has(j) && j < n ==>
         upper.Has(names[j].parentIdx) && Inside(names[j], names[names[j].parentIdx])
  }

  /** The child with which a parent ends comes no earlier than the next child without a parent. */
  lemma LastChild(names: seq<OneChunkName>, upper: PerLevelInfo, lower: PerLevelInfo, l: nat, total: nat, q: nat,
                  child: nat)
    returns (c: nat)
    requires Level(names, upper, l, total) && Level(names, lower, l + 1, total) && Pair(names, upper, lower)
    requires upper.Has(q) && lower.firstIndex <= child <= lower.Next()
    requires StartOf(names, lower, total, child) == names[q].offset
    ensures lower.Has(c) && child <= c && names[c].End() == names[q].End()
  {
    assert EndsBelow(names, lower, q);
    c :| lower.Has(c) && names[c].End() == names[q].End();
    if c < child {
      if child < lower.Next() {
        TileOrder(names, lower, l + 1, total, c, child);
      } else {
        TileBound(names, upper, l, total, q);
      }
      TileBound(names, upper, l, total, q);
    }
  }

  /** The state of the inner loop: children before child have parents, all else is as in g. */
  ghost predicate Adopting(g: seq<OneChunkName>, s: seq<OneChunkName>, upper: PerLevelInfo, lower: PerLevelInfo,
                           child: nat) {
    && OnlyParents(g, s) && ParentedTo(s, upper, lower, child)
    && (forall j :: 0 <= j < |s| && !lower.Has(j) ==> s[j] == g[j])
  }

  lemma AdoptStep(g: seq<OneChunkName>, s: seq<OneChunkName>, upper: PerLevelInfo, lower: PerLevelInfo, child: nat,
                  q: nat)
    requires Adopting(g, s, upper, lower, child) && lower.Has(child) && upper.Has(q) && upper.Next() <= lower.firstIndex
    requires Inside(g[child], g[q])
    ensures Adopting(g, s[child := s[child].(parentIdx := q)], upper, lower, child + 1)
  {
    var s' := s[child := s[child].(parentIdx := q)];
    forall j | lower.Has(j) && j < child + 1
      ensures upper.Has(s'[j].parentIdx) && Inside(s'[j], s'[s'[j].parentIdx])
    {
      if j < child {
        assert s'[j] == s[j];
        assert s'[s[j].parentIdx] == s[s[j].parentIdx];
      } else {
        assert s'[q] == s[q];
      }
    }
  }

  /** Child is inside q when it starts no earlier and comes no later than the child q ends with. */
  lemma ChildInside(g: seq<OneChunkName>, lower: PerLevelInfo, l: nat, total: nat, child: nat, c: nat, q: nat)
    requires Level(g, lower, l, total) && lower.Has(child) && lower.Has(c) && child <= c && q < |g|
    requires g[c].End() == g[q].End() && g[q].offset <= g[child].offset
    ensures Inside(g[child], g[q])
    ensures g[child].End() == g[q].End() <==> child == c
    ensures child < c ==> g[child + 1].offset == g[child].End()
  {
    if child < c {
      TileOrder(g, lower, l, total, child, c);
    }
  }

  /** The lengths are still those of g. */
  lemma AdoptingLength(g: seq<OneChunkName>, s: seq<OneChunkName>, upper: PerLevelInfo, lower: PerLevelInfo, child: nat,
                       j: int)
    requires Adopting(g, s, upper, lower, child) && (upper.Has(j) || lower.Has(j))
    ensures 0 <= j < |s| == |g| && s[j].length == g[j].length
  {
  }

  lemma LevelRange(g: seq<OneChunkName>, info: PerLevelInfo, l: nat, total: nat)
    requires Level(g, info, l, total)
    ensures info.numNames > 0 && info.Next() <= |g| && StartOf(g, info, total, info.firstIndex) == 0
  {
  }

  lemma LevelStep(g: seq<OneChunkName>, info: PerLevelInfo, l: nat, total: nat, j: int)
    requires Level(g, info, l, total) && info.Has(j)
    ensures j < |g| && info.Next() <= |g| && StartOf(g, info, total, j + 1) == g[j].End()
    ensures StartOf(g, info, total, j) == g[j].offset
  {
  }

  /** Give parent index q to the children that make it up; the inner loop of MakeTree. */
  method Adopt(a: array<OneChunkName>, q: nat, first: nat, parentLength: nat, firstLength: nat,
               ghost upper: PerLevelInfo, ghost lower: PerLevelInfo, ghost l: nat, ghost total: nat,
               ghost g: seq<OneChunkName>)
    returns (child: nat, childLength: nat)
    requires upper.Next() <= |g| && lower.Next() <= |g|
    requires Level(g, upper, l, total) && Level(g, lower, l + 1, total) && Pair(g, upper, lower)
    requires Adopting(g, a[..], upper, lower, first)
    requires upper.Has(q) && lower.firstIndex <= first <= lower.Next() && parentLength == g[q].End()
    requires upper.Next() == lower.firstIndex
    requires StartOf(g, lower, total, first) == firstLength == g[q].offset
    modifies a
    ensures first < child <= lower.Next() && childLength == parentLength == StartOf(g, lower, total, child)
    ensures Adopting(g, a[..], upper, lower, child)
  {
    hide Level, Pair, Adopting, Inside;
    ghost var c := LastChild(g, upper, lower, l, total, q, first);
    child, childLength := first, firstLength;
    while true
      invariant first <= child <= c && childLength == g[child].offset >= g[q].offset
      invariant Adopting(g, a[..], upper, lower, child)
      decreases c - child
    {
      ghost var s := a[..];
      ChildInside(g, lower, l + 1, total, child, c, q);
      AdoptStep(g, s, upper, lower, child, q);
      AdoptingLength(g, s, upper, lower, child, child);
      childLength := childLength + a[child].length;
      a[child] := a[child].(parentIdx := q);
      assert a[..] == s[child := s[child].(parentIdx := q)];
      child := child + 1;
      if childLength == parentLength {
        break;
      }
    }
    LevelStep(g, lower, l + 1, total, child - 1);
  }

  /** Link one level to the next. */
  method LinkLevels(a: array<OneChunkName>, upper: PerLevelInfo, lower: PerLevelInfo, ghost l: nat, ghost total: nat)
    requires Level(a[..], upper, l, total) && Level(a[..], lower, l + 1, total) && Pair(a[..], upper, lower)
    modifies a
    ensures LevelLinked(old(a[..]), a[..], upper, lower)
  {
    hide Level, Pair, Adopting, LevelLinked;
    ghost var g := a[..];
    LevelRange(g, upper, l, total);
    LevelRange(g, lower, l + 1, total);
    AdoptingStart(g, upper, lower);
    var parentIndex, childIndex := upper.firstIndex, lower.firstIndex;
    var parentLength, childLength := 0, 0;
    for j := 0 to upper.numNames
      invariant parentIndex == upper.firstIndex + j && lower.firstIndex <= childIndex <= lower.Next()
      invariant StartOf(g, upper, total, parentIndex) == parentLength == childLength ==
                  StartOf(g, lower, total, childIndex)
      invariant Adopting(g, a[..], upper, lower, childIndex)
    {
      AdoptingLength(g, a[..], upper, lower, childIndex, parentIndex);
      LevelStep(g, upper, l, total, parentIndex);
      parentLength := parentLength + a[parentIndex].length;
      childIndex, childLength := Adopt(a, parentIndex, childIndex, parentLength, childLength, upper, lower, l, total,
                                       g);
      parentIndex := parentIndex + 1;
    }
    AdoptingDone(g, a[..], upper, lower, l + 1, total, childIndex);
  }

  /** The lower level has its parents and nothing else has changed. */
  ghost predicate LevelLinked(a: seq<OneChunkName>, b: seq<OneChunkName>, upper: PerLevelInfo, lower: PerLevelInfo) {
    && OnlyParents(a, b) && Parented(b, upper, lower)
    && (forall j :: 0 <= j < |a| && !lower.Has(j) ==> b[j] == a[j])
  }

  lemma AdoptingStart(g: seq<OneChunkName>, upper: PerLevelInfo, lower: PerLevelInfo)
    requires Pair(g, upper, lower)
    ensures Adopting(g, g, upper, lower, lower.firstIndex) && upper.Next() == lower.firstIndex
  {
  }

  lemma AdoptingDone(g: seq<OneChunkName>, s: seq<OneChunkName>, upper: PerLevelInfo, lower: PerLevelInfo, l: nat,
                     total: nat, child: nat)
    requires Adopting(g, s, upper, lower, child) && Level(g, lower, l, total)
    requires lower.firstIndex <= child <= lower.Next()
    requires StartOf(g, lower, total, child) == total
    ensures LevelLinked(g, s, upper, lower)
  {
    if child < lower.Next() {
      TileBound(g, lower, l, total, child);
    }
  }

  /** Levels up to n have their parents. */
  ghost predicate LinkedTo(g: seq<OneChunkName>, s: seq<OneChunkName>, pli: seq<PerLevelInfo>, n: nat) {
    && OnlyParents(g, s)
    && (forall k, l :: 0 <= k < l < |pli| && l <= n && l == k + 1 ==> Parented(s, pli[k], pli[l]))
  }

  lemma OnlyParentsTrans(a: seq<OneChunkName>, b: seq<OneChunkName>, c: seq<OneChunkName>)
    requires OnlyParents(a, b) && OnlyParents(b, c)
    ensures OnlyParents(a, c) && |a| == |b| == |c|
  {
  }

  lemma LinkedStep(g: seq<OneChunkName>, s: seq<OneChunkName>, t: seq<OneChunkName>, pli: seq<PerLevelInfo>, total: nat,
                   n: nat)
    requires Levelled(g, pli, total) && LinkedTo(g, s, pli, n) && n + 1 < |pli| && LevelLinked(s, t, pli[n], pli[n + 1])
    ensures LinkedTo(g, t, pli, n + 1)
  {
    hide Levelled, Parented, OnlyParents;
    OnlyParentsTrans(g, s, t);
    forall k, l | 0 <= k < l < |pli| && l <= n && l == k + 1 ensures Parented(t, pli[k], pli[l]) {
      LevelsApart(g, pli, total, k, l);
      LevelsApart(g, pli, total, l, n + 1);
      ParentedSame(s, t, pli[k], pli[l], pli[n + 1]);
    }
  }

  lemma OnlyParentsShape(a: seq<OneChunkName>, b: seq<OneChunkName>)
    requires OnlyParents(a, b)
    ensures SameShape(a, b)
  {
  }

  lemma LevelsAt(g: seq<OneChunkName>, s: seq<OneChunkName>, pli: seq<PerLevelInfo>, total: nat, n: nat, i: nat)
    requires Levelled(g, pli, total) && LinkedTo(g, s, pli, n) && i + 1 < |pli|
    ensures Level(s, pli[i], i, total) && Level(s, pli[i + 1], i + 1, total) && Pair(s, pli[i], pli[i + 1])
  {
    OnlyParentsShape(g, s);
    LevelledSame(g, s, pli, total);
  }

  lemma LinkedTree(g: seq<OneChunkName>, s: seq<OneChunkName>, pli: seq<PerLevelInfo>, total: nat)
    requires Levelled(g, pli, total) && LinkedTo(g, s, pli, |pli| - 1)
    ensures Tree(s, pli, total) && OnlyParents(g, s)
  {
    OnlyParentsShape(g, s);
    LevelledSame(g, s, pli, total);
  }

  /** Give every name below the root its parent. */
  method MakeTree(a: array<OneChunkName>, pli: seq<PerLevelInfo>, ghost total: nat)
    requires pli != [] && Levelled(a[..], pli, total)
    modifies a
    ensures Tree(a[..], pli, total) && OnlyParents(old(a[..]), a[..])
  {
    hide Levelled, Level, Pair, LinkedTo, LevelLinked, Tree;
    ghost var g := a[..];
    LinkedStart(g, pli);
    for i := 0 to |pli| - 1
      invariant LinkedTo(g, a[..], pli, i)
    {
      ghost var s := a[..];
      LevelsAt(g, s, pli, total, i, i);
      LinkLevels(a, pli[i], pli[i + 1], i, total);
      LinkedStep(g, s, a[..], pli, total, i);
    }
    LinkedTree(g, a[..], pli, total);
  }

  lemma LinkedStart(g: seq<OneChunkName>, pli: seq<PerLevelInfo>)
    ensures LinkedTo(g, g, pli, 0)
  {
  }

  lemma {:induction false} LevelsApart(names: seq<OneChunkName>, pli: seq<PerLevelInfo>, total: nat, k: nat, l: nat)
    requires Levelled(names, pli, total) && k < l < |pli|
    ensures pli[k].Next() <= pli[l].firstIndex
    decreases l
  {
    assert Pair(names, pli[l - 1], pli[l]);
    if k < l - 1 {
      LevelsApart(names, pli, total, k, l - 1);
    }
  }

  lemma ParentedSame(a: seq<OneChunkName>, b: seq<OneChunkName>, upper: PerLevelInfo, lower: PerLevelInfo,
                     changed: PerLevelInfo)
    requires Parented(a, upper, lower) && |a| == |b| && upper.Next() <= lower.firstIndex
    requires lower.Next() <= changed.firstIndex
    requires forall j :: 0 <= j < |a| && !changed.Has(j) ==> b[j] == a[j]
    ensures Parented(b, upper, lower)
  {
  }
}
