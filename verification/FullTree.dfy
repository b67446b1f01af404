/**
 Full-tree mode at the receiver (InitChunkTreeInfo, waprox/mrc_tree.c): the levels and parents of
 all chunks are recovered from the list of their lengths.
 */
module FullTree {
  import opened ChunkNames
  import opened MrcTree

  /** The list holds every name of g once, in any order, each with its index and length. */
  ghost predicate Flattened(list: seq<OneChunkName>, g: seq<OneChunkName>) {
    && |list| == |g|
    && (forall i :: 0 <= i < |list| ==> list[i].index < |g|)
    && (forall i :: 0 <= i < |list| ==> list[i].length == g[list[i].index].length)
    && (forall i :: 0 <= i < |list| ==> list[i].sha1name == g[list[i].index].sha1name)
    && (forall i, j :: 0 <= i < j < |list| ==> list[i].index != list[j].index)
  }

  /** Every index has been placed. */
  ghost predicate Placed(list: seq<OneChunkName>, s: seq<OneChunkName>, i: nat) {
    && i <= |list| == |s| && forall k :: 0 <= k < i ==> list[k].index < |s| && s[list[k].index] == list[k]
  }

  /** n distinct indices below n are all of them. */
  lemma {:induction false} PigeonHole(s: set<nat>, n: nat)
    requires |s| == n && forall i :: i in s ==> i < n
    ensures forall i: nat :: i < n ==> i in s
  {
    if n > 0 {
      if n - 1 in s {
        PigeonHole(s - {n - 1}, n - 1);
      } else {
        SmallSet(s, n - 1);
      }
    }
  }

  lemma {:induction false} SmallSet(s: set<nat>, n: nat)
    requires forall i :: i in s ==> i < n
    ensures |s| <= n
  {
    if n == 0 {
      assert s == {};
    } else {
      SmallSet(s - {n - 1}, n - 1);
    }
  }

  ghost function Indices(list: seq<OneChunkName>): set<nat> {
    if list == [] then {} else Indices(list[1..]) + {list[0].index}
  }

  lemma {:induction false} IndicesDistinct(list: seq<OneChunkName>)
    requires forall i, j :: 0 <= i < j < |list| ==> list[i].index != list[j].index
    ensures |Indices(list)| == |list|
    ensures forall x :: x in Indices(list) <==> exists i :: 0 <= i < |list| && list[i].index == x
  {
    if list != [] {
      var t := list[1..];
      IndicesDistinct(t);
      assert forall i :: 0 <= i < |t| ==> t[i] == list[i + 1];
      assert list[0].index !in Indices(t);
      forall x | x in Indices(list) ensures exists i :: 0 <= i < |list| && list[i].index == x {
        if x != list[0].index {
          var i :| 0 <= i < |t| && t[i].index == x;
          assert list[i + 1].index == x;
        }
      }
      forall i | 0 <= i < |list| ensures list[i].index in Indices(list) {
        assert i > 0 ==> list[i] == t[i - 1];
      }
    }
  }

  /** The placed array has the lengths of g. */
  lemma PlacedLengths(list: seq<OneChunkName>, g: seq<OneChunkName>, s: seq<OneChunkName>)
    requires Flattened(list, g) && Placed(list, s, |list|)
    ensures LevelsTo(g, s, 0)
  {
    IndicesDistinct(list);
    PigeonHole(Indices(list), |g|);
    forall k | 0 <= k < |g| ensures s[k].length == g[k].length && s[k].index == k && s[k].sha1name == g[k].sha1name {
      assert k in Indices(list);
      var i :| 0 <= i < |list| && list[i].index == k;
    }
  }

  // ---------------------------------------------------------------- levels

  /** Names before index k have the level and offset they have in g; the others only their length. */
  ghost predicate LevelsTo(g: seq<OneChunkName>, s: seq<OneChunkName>, k: int) {
    && |s| == |g|
    && (forall j :: 0 <= j < |g| ==> s[j].length == g[j].length && s[j].index == j && s[j].sha1name == g[j].sha1name)
    && (forall j :: 0 <= j < |g| && j < k ==> s[j].level == g[j].level && s[j].offset == g[j].offset)
  }

  lemma LevelsStep(g: seq<OneChunkName>, s: seq<OneChunkName>, k: nat)
    requires LevelsTo(g, s, k) && k < |g|
    ensures LevelsTo(g, s[k := s[k].(level := g[k].level, offset := g[k].offset)], k + 1)
  {
  }

  /** Fill one level from its running sum of lengths; the inner loop of InitChunkTreeInfo. */
  method FillOneLevel(a: array<OneChunkName>, i: nat, first: nat, totLength: nat, ghost g: seq<OneChunkName>,
                      ghost info: PerLevelInfo)
    returns (index: nat, numNames: nat)
    requires Level(g, info, i, totLength) && first == info.firstIndex && LevelsTo(g, a[..], first)
    modifies a
    ensures index == info.Next() && numNames == info.numNames && LevelsTo(g, a[..], index)
  {
    hide Level, LevelsTo;
    var offset := 0;
    index, numNames := first, 0;
    LevelRange(g, info, i, totLength);
    LevelsLength(g, a[..], first);
    while true
      invariant first <= index < info.Next() && numNames == index - first && offset == g[index].offset
      invariant LevelsTo(g, a[..], index) && a.Length == |g|
      decreases info.Next() - index
    {
      ghost var s := a[..];
      LevelsLength(g, s, index);
      LevelStep(g, info, i, totLength, index);
      LevelEntry(g, info, i, totLength, index);
      LevelsStep(g, s, index);
      a[index] := a[index].(level := i, offset := offset);
      assert a[..] == s[index := s[index].(level := g[index].level, offset := g[index].offset)];
      offset := offset + a[index].length;
      numNames := numNames + 1;
      index := index + 1;
      if offset == totLength {
        break;
      }
    }
    if index < info.Next() {
      TileBound(g, info, i, totLength, index);
      LevelEntry(g, info, i, totLength, index);
    }
  }

  lemma LevelEntry(g: seq<OneChunkName>, info: PerLevelInfo, l: nat, total: nat, j: nat)
    requires Level(g, info, l, total) && info.Has(j)
    ensures j < |g| && g[j].level == l && g[j].length > 0
    ensures j + 1 == info.Next() ==> g[j].End() == total
    ensures j + 1 < info.Next() ==> g[j].End() == g[j + 1].offset
  {
  }

  lemma LevelsLength(g: seq<OneChunkName>, s: seq<OneChunkName>, k: int)
    requires LevelsTo(g, s, k)
    ensures |s| == |g| && forall j :: 0 <= j < |g| ==> s[j].length == g[j].length
  {
  }

  /** Recover the levels. */
  method FillLevels(a: array<OneChunkName>, maxLevel: nat, ghost g: seq<OneChunkName>, ghost pli: seq<PerLevelInfo>,
                    ghost total: nat)
    returns (levInfo: seq<PerLevelInfo>)
    requires Levelled(g, pli, total) && LevelsTo(g, a[..], 0) && |pli| <= maxLevel
    modifies a
    ensures levInfo == pli && LevelsTo(g, a[..], |g|)
  {
    hide Levelled, Level, LevelsTo;
    RootLength(g, pli, total);
    LevelsLength(g, a[..], 0);
    var totLength := a[0].length;
    var index := 0;
    levInfo := [];
    for i := 0 to maxLevel
      invariant i < |pli| && levInfo == pli[..i] && index == pli[i].firstIndex && LevelsTo(g, a[..], index)
      invariant a.Length == |g|
    {
      LevelledAt(g, pli, total, i);
      var first := index;
      var n;
      index, n := FillOneLevel(a, i, index, totLength, g, pli[i]);
      levInfo := levInfo + [PerLevelInfo(n, first)];
      LevelsLength(g, a[..], index);
      if index == a.Length {
        LevelledLast(g, pli, total, i);
        return;
      }
      LevelledLast(g, pli, total, i);
    }
  }

  lemma RootLength(g: seq<OneChunkName>, pli: seq<PerLevelInfo>, total: nat)
    requires Levelled(g, pli, total)
    ensures |g| > 0 && g[0].length == total > 0 && g[0].offset == 0 && pli != [] && pli[0].firstIndex == 0
  {
    assert Level(g, pli[0], 0, total);
  }

  lemma LevelledAt(g: seq<OneChunkName>, pli: seq<PerLevelInfo>, total: nat, i: nat)
    requires Levelled(g, pli, total) && i < |pli|
    ensures Level(g, pli[i], i, total) && pli[i] == PerLevelInfo(pli[i].numNames, pli[i].firstIndex)
  {
  }

  /** The array ends with the last level and with no other. */
  lemma LevelledLast(g: seq<OneChunkName>, pli: seq<PerLevelInfo>, total: nat, i: nat)
    requires Levelled(g, pli, total) && i < |pli|
    ensures pli[i].Next() == |g| <==> i + 1 == |pli|
    ensures i + 1 < |pli| ==> pli[i + 1].firstIndex == pli[i].Next()
  {
    if i + 1 < |pli| {
      assert Pair(g, pli[i], pli[i + 1]);
      assert Level(g, pli[i + 1], i + 1, total);
    }
  }

  // ---------------------------------------------------------------- parents

  /** As g in everything that places a name, and in the parents of names before index k. */
  ghost predicate ParentsTo(g: seq<OneChunkName>, s: seq<OneChunkName>, k: int) {
    && LevelsTo(g, s, |g|)
    && (forall j :: 0 < j < |g| && j < k ==> s[j].parentIdx == g[j].parentIdx)
  }

  lemma ParentsStep(g: seq<OneChunkName>, s: seq<OneChunkName>, k: nat)
    requires ParentsTo(g, s, k) && k < |g|
    ensures ParentsTo(g, s[k := s[k].(parentIdx := g[k].parentIdx)], k + 1)
  {
  }

  lemma ParentsLength(g: seq<OneChunkName>, s: seq<OneChunkName>, k: int)
    requires ParentsTo(g, s, k)
    ensures |s| == |g| && forall j :: 0 <= j < |g| ==> s[j].length == g[j].length
  {
  }

  /** Give parent q to the children whose lengths make it up. */
  method AdoptByLength(a: array<OneChunkName>, q: nat, first: nat, parentLength: nat, firstLength: nat,
                       ghost g: seq<OneChunkName>, ghost upper: PerLevelInfo, ghost lower: PerLevelInfo, ghost l: nat,
                       ghost total: nat)
    returns (child: nat, childLength: nat)
    requires upper.Next() <= |g| && lower.Next() <= |g|
    requires Level(g, upper, l, total) && Level(g, lower, l + 1, total) && Pair(g, upper, lower)
    requires Parented(g, upper, lower)
    requires ParentsTo(g, a[..], first) && upper.Has(q) && lower.firstIndex <= first <= lower.Next()
    requires parentLength == g[q].End() && StartOf(g, lower, total, first) == firstLength == g[q].offset
    modifies a
    ensures first < child <= lower.Next() && childLength == parentLength == StartOf(g, lower, total, child)
    ensures ParentsTo(g, a[..], child)
  {
    hide Level, Pair, ParentsTo, Parented;
    ghost var c := LastChild(g, upper, lower, l, total, q, first);
    child, childLength := first, firstLength;
    while true
      invariant first <= child <= c && childLength == g[child].offset >= g[q].offset
      invariant ParentsTo(g, a[..], child)
      decreases c - child
    {
      ghost var s := a[..];
      ParentsLength(g, s, child);
      ChildInside(g, lower, l + 1, total, child, c, q);
      ParentUnique(g, upper, lower, l, total, child, q);
      ParentsStep(g, s, child);
      childLength := childLength + a[child].length;
      a[child] := a[child].(parentIdx := q);
      assert a[..] == s[child := s[child].(parentIdx := g[child].parentIdx)];
      child := child + 1;
      if childLength == parentLength {
        break;
      }
    }
    LevelStep(g, lower, l + 1, total, child - 1);
  }

  /** Recover the parents of one level. */
  method FillParents(a: array<OneChunkName>, upper: PerLevelInfo, lower: PerLevelInfo, ghost g: seq<OneChunkName>,
                     ghost l: nat, ghost total: nat)
    requires Level(g, upper, l, total) && Level(g, lower, l + 1, total) && Pair(g, upper, lower)
    requires Parented(g, upper, lower)
    requires ParentsTo(g, a[..], lower.firstIndex)
    modifies a
    ensures ParentsTo(g, a[..], lower.Next())
  {
    hide Level, Pair, ParentsTo, Parented;
    LevelRange(g, upper, l, total);
    LevelRange(g, lower, l + 1, total);
    var parentIndex, childIndex := upper.firstIndex, lower.firstIndex;
    var parentLength, childLength := 0, 0;
    for j := 0 to upper.numNames
      invariant parentIndex == upper.firstIndex + j && lower.firstIndex <= childIndex <= lower.Next()
      invariant StartOf(g, upper, total, parentIndex) == parentLength == childLength ==
                  StartOf(g, lower, total, childIndex)
      invariant ParentsTo(g, a[..], childIndex)
    {
      ParentsLength(g, a[..], childIndex);
      LevelStep(g, upper, l, total, parentIndex);
      parentLength := parentLength + a[parentIndex].length;
      childIndex, childLength := AdoptByLength(a, parentIndex, childIndex, parentLength, childLength, g, upper, lower,
                                               l, total);
      parentIndex := parentIndex + 1;
    }
    if childIndex < lower.Next() {
      LevelEntry(g, lower, l + 1, total, childIndex);
      TileBound(g, lower, l + 1, total, childIndex);
    }
  }

  /** As g in length, index, level, offset and parent. */
  ghost predicate Recovered(g: seq<OneChunkName>, s: seq<OneChunkName>) {
    ParentsTo(g, s, |g|)
  }

  /**
   From a list of names in any order, of which only indices, lengths and hashes are used, recover
   the levels, the per-level information and every parent of the tree the list was made from.
   The running offset is kept in the name.
   */
  method InitChunkTreeInfo(list: seq<OneChunkName>, maxLevel: nat, ghost g: seq<OneChunkName>,
                           ghost pli: seq<PerLevelInfo>, ghost total: nat)
    returns (a: array<OneChunkName>, levInfo: seq<PerLevelInfo>)
    requires Tree(g, pli, total) && Flattened(list, g) && |pli| <= maxLevel
    ensures fresh(a) && levInfo == pli && Recovered(g, a[..]) && Tree(a[..], pli, total)
  {
    hide Tree, Level, Levelled, Pair, Parented, LevelsTo, ParentsTo, Flattened;
    a := Place(list, g);
    TreeLevelled(g, pli, total);
    levInfo := FillLevels(a, maxLevel, g, pli, total);
    ParentsStart(g, a[..], pli, total);
    for i := 0 to |levInfo| - 1
      invariant ParentsTo(g, a[..], pli[i].Next())
    {
      TreeAt(g, pli, total, i);
      FillParents(a, levInfo[i], levInfo[i + 1], g, i, total);
    }
    LevelledLast(g, pli, total, |pli| - 1);
    RecoveredTree(g, a[..], pli, total);
  }

  /** Put every name at its index. */
  method Place(list: seq<OneChunkName>, ghost g: seq<OneChunkName>) returns (a: array<OneChunkName>)
    requires Flattened(list, g)
    ensures fresh(a) && LevelsTo(g, a[..], 0)
  {
    hide LevelsTo;
    a := new OneChunkName[|list|](_ => NewName(0, 0, 0, 0));
    for i := 0 to |list|
      invariant Placed(list, a[..], i)
    {
      a[list[i].index] := list[i];
    }
    PlacedLengths(list, g, a[..]);
  }

  lemma TreeLevelled(g: seq<OneChunkName>, pli: seq<PerLevelInfo>, total: nat)
    requires Tree(g, pli, total)
    ensures Levelled(g, pli, total) && pli != []
  {
  }

  lemma TreeAt(g: seq<OneChunkName>, pli: seq<PerLevelInfo>, total: nat, i: nat)
    requires Tree(g, pli, total) && i + 1 < |pli|
    ensures Level(g, pli[i], i, total) && Level(g, pli[i + 1], i + 1, total) && Pair(g, pli[i], pli[i + 1])
    ensures Parented(g, pli[i], pli[i + 1])
    ensures pli[i + 1].firstIndex == pli[i].Next()
  {
    assert Pair(g, pli[i], pli[i + 1]);
  }

  lemma ParentsStart(g: seq<OneChunkName>, s: seq<OneChunkName>, pli: seq<PerLevelInfo>, total: nat)
    requires LevelsTo(g, s, |g|) && Levelled(g, pli, total)
    ensures ParentsTo(g, s, pli[0].Next())
  {
  }

  /** What is recovered is a tree. */
  lemma RecoveredTree(g: seq<OneChunkName>, s: seq<OneChunkName>, pli: seq<PerLevelInfo>, total: nat)
    requires Tree(g, pli, total) && Recovered(g, s)
    ensures Tree(s, pli, total)
  {
    hide Levelled, Level, Pair;
    RecoveredLevels(g, s, pli, total);
    forall k, l | 0 <= k < l < |pli| && l == k + 1 ensures Parented(s, pli[k], pli[l]) {
      TreeAt(g, pli, total, k);
      RecoveredParents(g, s, pli[k], pli[l]);
    }
  }

  lemma RecoveredParents(g: seq<OneChunkName>, s: seq<OneChunkName>, upper: PerLevelInfo, lower: PerLevelInfo)
    requires Parented(g, upper, lower) && Recovered(g, s) && upper.Next() <= lower.firstIndex
    ensures Parented(s, upper, lower)
  {
    forall j | lower.Has(j)
      ensures s[j].parentIdx >= 0 && upper.Has(s[j].parentIdx) && Inside(s[j], s[s[j].parentIdx])
    {
      assert j > 0 ==> s[j].parentIdx == g[j].parentIdx;
      assert upper.Has(g[j].parentIdx);
    }
  }

  lemma RecoveredLevels(g: seq<OneChunkName>, s: seq<OneChunkName>, pli: seq<PerLevelInfo>, total: nat)
    requires Tree(g, pli, total) && Recovered(g, s)
    ensures Levelled(s, pli, total)
  {
    forall l | 0 <= l < |pli| ensures Level(s, pli[l], l, total) {
      assert Level(g, pli[l], l, total);
    }
    forall k, l | 0 <= k < l < |pli| && l == k + 1 ensures Pair(s, pli[k], pli[l]) {
      PairKept(g, s, pli[k], pli[l]);
    }
  }

  lemma PairKept(g: seq<OneChunkName>, s: seq<OneChunkName>, upper: PerLevelInfo, lower: PerLevelInfo)
    requires Pair(g, upper, lower) && Recovered(g, s)
    ensures Pair(s, upper, lower)
  {
    forall j | upper.Has(j) ensures EndsBelow(s, lower, j) {
      assert EndsBelow(g, lower, j);
      var c :| lower.Has(c) && g[c].End() == g[j].End();
      assert s[c].End() == s[j].End();
    }
  }
}
