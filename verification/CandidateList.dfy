/** The imperative part of candidate selection (FlushChildren and GetCandidateList2, waprox/mrc_tree.c). */
module CandidateList {
  import opened ChunkNames
  import opened MrcTree
  import opened Resolve
  import opened Candidates

  /** The names marked as candidates. */
  ghost function CandsOf(s: seq<OneChunkName>): (r: set<nat>)
    ensures forall i: nat :: i in r <==> i < |s| && s[i].isCandidate
  {
    set i: nat | i < |s| && s[i].isCandidate
  }

  ghost function HitSet(s: seq<OneChunkName>): (r: set<nat>)
    ensures forall i: nat :: i in r <==> i < |s| && s[i].isHit
  {
    set i: nat | i < |s| && s[i].isHit
  }

  ghost function SetOf(stack: seq<nat>): (r: set<nat>)
    ensures forall i: nat :: i in r <==> i in stack
  {
    set i | i in stack
  }

  /** The names differ at most in whether they are candidates. */
  ghost predicate OnlyCands(r: seq<OneChunkName>, s: seq<OneChunkName>) {
    |r| == |s| && forall j {:trigger s[j]} :: 0 <= j < |r| ==> s[j] == r[j].(isCandidate := s[j].isCandidate)
  }

  /** The candidates after FlushChildren. */
  ghost function AfterFlush(hit: set<nat>, cands: set<nat>, kids: set<nat>, q: nat): set<nat> {
    if kids <= cands then (if kids <= hit || kids !! hit then cands - kids + {q} else cands - {q}) else cands
  }

  ghost predicate AllCands(s: seq<OneChunkName>, stack: seq<nat>) {
    forall k :: 0 <= k < |stack| ==> stack[k] < |s| && s[stack[k]].isCandidate
  }

  ghost predicate AllAre(s: seq<OneChunkName>, stack: seq<nat>, hit: bool) {
    forall k :: 0 <= k < |stack| ==> stack[k] < |s| && s[stack[k]].isHit == hit
  }

  /** The family on the stack gives way to its parent when all of it are candidates, and all hits or all misses. */
  lemma FlushMeans(s: seq<OneChunkName>, stack: seq<nat>, q: nat)
    requires forall k :: 0 <= k < |stack| ==> stack[k] < |s|
    ensures var cands := AfterFlush(HitSet(s), CandsOf(s), SetOf(stack), q);
            cands == if !AllCands(s, stack) then CandsOf(s)
                     else if AllAre(s, stack, true) || AllAre(s, stack, false) then CandsOf(s) - SetOf(stack) + {q}
                     else CandsOf(s) - {q}
  {
    var kids := SetOf(stack);
    if kids <= CandsOf(s) {
      forall k | 0 <= k < |stack| ensures s[stack[k]].isCandidate {
        assert stack[k] in kids;
      }
    }
    assert kids <= HitSet(s) <==> AllAre(s, stack, true) by {
      forall k | 0 <= k < |stack| ensures kids <= HitSet(s) ==> s[stack[k]].isHit {
        assert stack[k] in kids;
      }
    }
    assert kids !! HitSet(s) <==> AllAre(s, stack, false) by {
      forall k | 0 <= k < |stack| ensures kids !! HitSet(s) ==> !s[stack[k]].isHit {
        assert stack[k] in kids;
      }
    }
  }

  lemma OnlyCandsUpdate(r: seq<OneChunkName>, s: seq<OneChunkName>, i: nat, b: bool)
    requires OnlyCands(r, s) && i < |s|
    ensures OnlyCands(r, s[i := s[i].(isCandidate := b)])
    ensures CandsOf(s[i := s[i].(isCandidate := b)]) == if b then CandsOf(s) + {i} else CandsOf(s) - {i}
    ensures HitSet(s[i := s[i].(isCandidate := b)]) == HitSet(s)
  {
  }

  /** Set the candidate flag of one name. */
  method Mark(a: array<OneChunkName>, i: nat, b: bool, ghost r: seq<OneChunkName>)
    requires i < a.Length && OnlyCands(r, a[..])
    modifies a
    ensures OnlyCands(r, a[..])
    ensures CandsOf(a[..]) == if b then old(CandsOf(a[..])) + {i} else old(CandsOf(a[..])) - {i}
  {
    hide OnlyCands;
    ghost var s := a[..];
    OnlyCandsUpdate(r, s, i, b);
    a[i] := a[i].(isCandidate := b);
    assert a[..] == s[i := s[i].(isCandidate := b)];
  }

  /** Set the candidate flag of every name on the stack. */
  method MarkAll(a: array<OneChunkName>, stack: seq<nat>, b: bool, ghost r: seq<OneChunkName>)
    requires (forall k :: 0 <= k < |stack| ==> stack[k] < a.Length) && OnlyCands(r, a[..])
    modifies a
    ensures OnlyCands(r, a[..])
    ensures CandsOf(a[..]) == if b then old(CandsOf(a[..])) + SetOf(stack) else old(CandsOf(a[..])) - SetOf(stack)
  {
    hide OnlyCands, CandsOf;
    ghost var cands := CandsOf(a[..]);
    for i := 0 to |stack|
      invariant OnlyCands(r, a[..])
      invariant CandsOf(a[..]) == if b then cands + SetOf(stack[..i]) else cands - SetOf(stack[..i])
    {
      Mark(a, stack[i], b, r);
      assert SetOf(stack[..i + 1]) == SetOf(stack[..i]) + {stack[i]};
    }
    assert stack[..|stack|] == stack;
  }

  /** How many of the names on the stack are hits and how many are candidates. */
  method CountFlags(a: array<OneChunkName>, stack: seq<nat>) returns (hits: nat, cands: nat)
    requires forall k :: 0 <= k < |stack| ==> stack[k] < a.Length
    ensures cands <= |stack| && (cands == |stack| <==> SetOf(stack) <= CandsOf(a[..]))
    ensures hits <= |stack| && (hits == |stack| <==> SetOf(stack) <= HitSet(a[..]))
    ensures hits == 0 <==> SetOf(stack) !! HitSet(a[..])
  {
    hits, cands := 0, 0;
    for i := 0 to |stack|
      invariant cands <= i && (cands == i <==> SetOf(stack[..i]) <= CandsOf(a[..]))
      invariant hits <= i && (hits == i <==> SetOf(stack[..i]) <= HitSet(a[..]))
      invariant hits == 0 <==> SetOf(stack[..i]) !! HitSet(a[..])
    {
      assert SetOf(stack[..i + 1]) == SetOf(stack[..i]) + {stack[i]};
      if a[stack[i]].isHit {
        hits := hits + 1;
      }
      if a[stack[i]].isCandidate {
        cands := cands + 1;
      }
    }
    assert stack[..|stack|] == stack;
  }

  /** Merge the children on the stack into their parent when they are all hits or all misses. */
  method FlushChildren(a: array<OneChunkName>, stack: seq<nat>, ghost r: seq<OneChunkName>)
    requires |stack| >= 1 && (forall k :: 0 <= k < |stack| ==> stack[k] < a.Length) && OnlyCands(r, a[..])
    requires 0 <= Parent(a[..], stack[0]) < a.Length
    requires forall k :: 0 <= k < |stack| ==> Parent(a[..], stack[k]) == Parent(a[..], stack[0])
    modifies a
    ensures OnlyCands(r, a[..])
    ensures CandsOf(a[..]) ==
              AfterFlush(old(HitSet(a[..])), old(CandsOf(a[..])), SetOf(stack), old(Parent(a[..], stack[0])))
    ensures var q := old(Parent(a[..], stack[0]));
            CandsOf(a[..]) ==
              if !AllCands(old(a[..]), stack) then CandsOf(old(a[..]))
              else if AllAre(old(a[..]), stack, true) || AllAre(old(a[..]), stack, false) then
                CandsOf(old(a[..])) - SetOf(stack) + {q}
              else CandsOf(old(a[..])) - {q}
  {
    hide OnlyCands, CandsOf, HitSet, AllCands, AllAre;
    FlushMeans(a[..], stack, Parent(a[..], stack[0]));
    var parent: nat := if stack[0] == 0 then 0 else a[stack[0]].parentIdx;
    var hitCount, candidateCount := CountFlags(a, stack);
    if candidateCount < |stack| {
      return;
    }
    if hitCount == 0 || hitCount == |stack| {
      MarkAll(a, stack, false, r);
      Mark(a, parent, true, r);
    } else {
      MarkAll(a, stack, true, r);
      Mark(a, parent, false, r);
    }
  }

  // ---------------------------------------------------------------- one level

  /** The indices from lo up to hi, in order. */
  function RangeSeq(lo: nat, hi: nat): (s: seq<nat>)
    requires lo <= hi
    ensures |s| == hi - lo && forall k :: 0 <= k < |s| ==> s[k] == lo + k
  {
    seq(hi - lo, k requires 0 <= k < hi - lo => lo + k)
  }

  lemma RangeSeqSnoc(lo: nat, hi: nat)
    requires lo <= hi
    ensures RangeSeq(lo, hi) + [hi] == RangeSeq(lo, hi + 1) && RangeSeq(hi + 1, hi + 1) == []
  {
  }

  lemma RangeSeqSet(lo: nat, hi: nat)
    requires lo <= hi
    ensures SetOf(RangeSeq(lo, hi)) == Range(lo, hi)
  {
    var s := RangeSeq(lo, hi);
    forall i: nat ensures i in SetOf(s) <==> i in Range(lo, hi) {
      if lo <= i < hi {
        assert s[i - lo] == i;
      }
    }
  }

  /** Index lo begins a family, or the level is over. */
  ghost predicate FamilyStart(r: seq<OneChunkName>, lower: PerLevelInfo, lo: nat) {
    && lower.firstIndex <= lo <= lower.Next() <= |r|
    && (lo < lower.Next() ==> 0 <= r[lo].parentIdx < |r| && r[lo].offset == r[r[lo].parentIdx].offset)
  }

  lemma FirstFamily(r: seq<OneChunkName>, upper: PerLevelInfo, lower: PerLevelInfo, l: nat, total: nat)
    requires Level(r, upper, l, total) && Level(r, lower, l + 1, total) && Parented(r, upper, lower)
    ensures FamilyStart(r, lower, lower.firstIndex)
  {
    assert lower.Has(lower.firstIndex);
  }

  /** A run of equal parents that cannot be extended is a family, and the next one starts after it. */
  lemma FamilyEnds(r: seq<OneChunkName>, upper: PerLevelInfo, lower: PerLevelInfo, l: nat, total: nat, lo: nat, hi: nat,
                   q: nat)
    requires Level(r, upper, l, total) && Level(r, lower, l + 1, total) && Parented(r, upper, lower)
    requires upper.Next() == lower.firstIndex
    requires FamilyStart(r, lower, lo) && lo < hi <= lower.Next() <= |r|
    requires forall j :: lo <= j < hi ==> r[j].parentIdx == q
    requires hi == lower.Next() || r[hi].parentIdx != q
    ensures upper.Has(q) && Family(r, lower, lo, hi, q) && FamilyStart(r, lower, hi)
    ensures StartOf(r, lower, total, lo) == r[q].offset && StartOf(r, lower, total, hi) == r[q].End()
  {
    assert lower.Has(lo) && lower.Has(hi - 1);
    var e := r[hi - 1].End();
    TileBound(r, upper, l, total, q);
    if hi < lower.Next() {
      assert lower.Has(hi);
      var q' := r[hi].parentIdx;
      assert r[hi].offset == e;
      if r[q].End() > e {
        TileDisjoint(r, upper, l, total, q, q', e);
      }
      if r[q'].offset < e {
        TileDisjoint(r, upper, l, total, q, q', e - 1);
      }
    }
  }

  /** The merge loop stands at index lo, with nothing on the stack. */
  ghost predicate MergedTo(r: seq<OneChunkName>, s: seq<OneChunkName>, upper: PerLevelInfo, lower: PerLevelInfo,
                           total: nat, top: nat, bound: nat, lo: nat) {
    && OnlyCands(r, s) && FamilyStart(r, lower, lo)
    && Merging(r, HitSet(r), CandsOf(s), top, bound, upper, lower, total, StartOf(r, lower, total, lo))
  }

  /** Hits pass from parents to children. */
  ghost predicate Inherited(r: seq<OneChunkName>, lower: PerLevelInfo) {
    lower.Next() <= |r| && forall j :: lower.Has(j) && 0 <= r[j].parentIdx < |r| && r[r[j].parentIdx].isHit ==>
      r[j].isHit
  }

  /** The names with a parent in the upper level are those of the lower one. */
  ghost predicate Lone(r: seq<OneChunkName>, upper: PerLevelInfo, lower: PerLevelInfo) {
    forall j :: 0 < j < |r| && upper.Has(r[j].parentIdx) ==> lower.Has(j)
  }

  /** A family holds all children of its parent. */
  lemma FamilyChildren(r: seq<OneChunkName>, upper: PerLevelInfo, lower: PerLevelInfo, l: nat, total: nat, lo: nat,
                       hi: nat, q: nat)
    requires Level(r, lower, l, total) && Parented(r, upper, lower) && Lone(r, upper, lower)
    requires upper.Has(q) && Family(r, lower, lo, hi, q)
    ensures Children(r, lo, hi, q)
  {
    forall j: nat ensures Child(r, q, j) <==> lo <= j < hi {
      if Child(r, q, j) {
        assert lower.Has(j) && Inside(r[j], r[q]) && r[j].length > 0;
        FamilyPlace(r, lower, l, total, lo, hi, q, j);
      }
    }
  }

  lemma MergedStep(r: seq<OneChunkName>, s: seq<OneChunkName>, t: seq<OneChunkName>, upper: PerLevelInfo,
                   lower: PerLevelInfo, l: nat, total: nat, top: nat, bound: nat, lo: nat, hi: nat, q: nat)
    requires Level(r, upper, l, total) && Level(r, lower, l + 1, total) && Parented(r, upper, lower)
    requires upper.Next() == lower.firstIndex <= top && Lone(r, upper, lower)
    requires MergedTo(r, s, upper, lower, total, top, bound, lo)
    requires lo < hi <= lower.Next() <= |r| && (forall j :: lo <= j < hi ==> r[j].parentIdx == q)
    requires hi == lower.Next() || r[hi].parentIdx != q
    requires OnlyCands(r, t) && CandsOf(t) == AfterFlush(HitSet(r), CandsOf(s), Range(lo, hi), q)
    ensures MergedTo(r, t, upper, lower, total, top, bound, hi)
  {
    hide Level, Parented, OnlyCands, Merging, CandsOf, Family, AfterFlush, Flushed, Children, Lone;
    FamilyEnds(r, upper, lower, l, total, lo, hi, q);
    FamilyChildren(r, upper, lower, l + 1, total, lo, hi, q);
    MergingStep(r, HitSet(r), CandsOf(s), top, bound, upper, lower, l, total, lo, hi, q);
    FlushedAgrees(HitSet(r), CandsOf(s), lo, hi, q);
  }

  lemma FlushedAgrees(hit: set<nat>, cands: set<nat>, lo: nat, hi: nat, q: nat)
    requires q !in cands
    ensures AfterFlush(hit, cands, Range(lo, hi), q) == Flushed(hit, cands, lo, hi, q) <= cands + {q}
  {
    assert cands - {q} == cands;
  }

  lemma StackReady(r: seq<OneChunkName>, s: seq<OneChunkName>, upper: PerLevelInfo, lower: PerLevelInfo, lo: nat,
                   hi: nat, q: int)
    requires Parented(r, upper, lower) && upper.Next() == lower.firstIndex && OnlyCands(r, s) && lower.firstIndex > 0
    requires lower.firstIndex <= lo < hi <= lower.Next() <= |r| && (forall j :: lo <= j < hi ==> r[j].parentIdx == q)
    ensures HitSet(r) == HitSet(s) && 0 <= q < |s| == |r|
    ensures forall j :: lo <= j < hi ==> Parent(s, j) == q
  {
    assert lower.Has(lo);
  }

  lemma SameParent(r: seq<OneChunkName>, s: seq<OneChunkName>, j: nat)
    requires OnlyCands(r, s) && j < |r|
    ensures |r| == |s| && s[j].parentIdx == r[j].parentIdx
  {
  }

  /** Merge one level below the root into the level above it. */
  method MergeLevel(a: array<OneChunkName>, lower: PerLevelInfo, ghost r: seq<OneChunkName>, ghost upper: PerLevelInfo,
                    ghost l: nat, ghost total: nat, ghost top: nat, ghost bound: nat)
    requires Level(r, upper, l, total) && Level(r, lower, l + 1, total) && Parented(r, upper, lower)
    requires upper.Next() == lower.firstIndex <= top && Lone(r, upper, lower)
    requires lower.Next() <= |r| && lower.firstIndex > 0
    requires MergedTo(r, a[..], upper, lower, total, top, bound, lower.firstIndex)
    modifies a
    ensures MergedTo(r, a[..], upper, lower, total, top, bound, lower.Next())
  {
    hide Level, Parented, OnlyCands, MergedTo, Lone, CandsOf, HitSet, AfterFlush, RangeSeq, Range, SetOf;
    var stack: seq<nat> := [];
    assert RangeSeq(lower.firstIndex, lower.firstIndex) == [];
    ghost var lo := lower.firstIndex;
    MergedFrame(r, a[..], upper, lower, total, top, bound, lo);
    for j := 0 to lower.numNames
      invariant lower.firstIndex <= lo <= lower.firstIndex + j && stack == RangeSeq(lo, lower.firstIndex + j)
      invariant forall k :: lo <= k < lower.firstIndex + j ==> r[k].parentIdx == r[lo].parentIdx
      invariant lo < lower.firstIndex + j < lower.Next() ==> r[lower.firstIndex + j].parentIdx == r[lo].parentIdx
      invariant j == lower.numNames ==> lo == lower.Next()
      invariant OnlyCands(r, a[..]) && MergedTo(r, a[..], upper, lower, total, top, bound, lo)
    {
      var child := lower.firstIndex + j;
      SameParent(r, a[..], child);
      RangeSeqSnoc(lo, child);
      stack := stack + [child];
      var last := j == lower.numNames - 1;
      if !last {
        SameParent(r, a[..], child + 1);
      }
      if last || a[child + 1].parentIdx != a[child].parentIdx {
        ghost var s, q := a[..], r[lo].parentIdx;
        StackReady(r, s, upper, lower, lo, child + 1, q);
        RangeSeqSet(lo, child + 1);
        FlushChildren(a, stack, r);
        MergedStep(r, s, a[..], upper, lower, l, total, top, bound, lo, child + 1, q);
        stack := [];
        lo := child + 1;
      }
    }
  }

  lemma MergedFrame(r: seq<OneChunkName>, s: seq<OneChunkName>, upper: PerLevelInfo, lower: PerLevelInfo, total: nat,
                    top: nat, bound: nat, lo: nat)
    requires MergedTo(r, s, upper, lower, total, top, bound, lo)
    ensures OnlyCands(r, s) && |r| == |s|
  {
  }

  // ---------------------------------------------------------------- all levels

  /** What resolution and the tree give: levels, parents, and hits that pass downwards, up to level low. */
  ghost predicate Ready(r: seq<OneChunkName>, pli: seq<PerLevelInfo>, total: nat, low: nat) {
    && low < |pli| && Tree(r, pli, total) && CandsOf(r) == {}
    && (forall l :: 1 <= l <= low ==> Inherited(r, pli[l]))
  }

  /**
   The candidates cover the block and are the largest chunks whose families, down to index top, are of one
   kind; below the root none has a hit for a parent.
   */
  ghost predicate Chosen(r: seq<OneChunkName>, s: seq<OneChunkName>, total: nat, top: nat, bound: nat) {
    && OnlyCands(r, s) && Cover(r, CandsOf(s), total) && Nested(r, top, bound)
    && Exact(r, HitSet(r), CandsOf(s), top, bound)
    && (forall c :: c in CandsOf(s) ==> c < bound && (c > 0 ==> r[c].parentIdx !in HitSet(r)))
  }

  /** The bottom-up loop before level i: its names are still to be merged. */
  ghost predicate Rising(r: seq<OneChunkName>, s: seq<OneChunkName>, pli: seq<PerLevelInfo>, total: nat, top: nat,
                         bound: nat, i: int) {
    if 1 <= i < |pli| then MergedTo(r, s, pli[i - 1], pli[i], total, top, bound, pli[i].firstIndex)
    else OnlyCands(r, s) && Cover(r, CandsOf(s), total) && Exact(r, HitSet(r), CandsOf(s), top, bound)
  }

  lemma TreePair(r: seq<OneChunkName>, pli: seq<PerLevelInfo>, total: nat, i: nat)
    requires Tree(r, pli, total) && 1 <= i < |pli|
    ensures Level(r, pli[i - 1], i - 1, total) && Level(r, pli[i], i, total) && Parented(r, pli[i - 1], pli[i])
    ensures pli[i - 1].Next() == pli[i].firstIndex && pli[i].firstIndex > 0 && pli[i].Next() <= |r|
    ensures pli[0] == PerLevelInfo(1, 0)
  {
    assert Pair(r, pli[i - 1], pli[i]);
  }

  /** Level l, which holds j, and the level above, which holds its parent. */
  lemma LevelOfChild(r: seq<OneChunkName>, pli: seq<PerLevelInfo>, total: nat, j: nat) returns (l: nat)
    requires Tree(r, pli, total) && 0 < j < |r|
    ensures 1 <= l < |pli| && pli[l].Has(j) && pli[l - 1].Has(r[j].parentIdx) && 0 <= r[j].parentIdx < j
    ensures Inside(r[j], r[r[j].parentIdx]) && r[j].length > 0
  {
    hide Level, Parented;
    l := LevelOfIndex(r, pli, total, j, |pli| - 1);
    if l > 0 {
      TreePair(r, pli, total, l);
      ChildInside(r, pli[l - 1], pli[l], l, total, j);
    }
  }

  lemma ChildInside(r: seq<OneChunkName>, upper: PerLevelInfo, lower: PerLevelInfo, l: nat, total: nat, j: nat)
    requires Parented(r, upper, lower) && Level(r, lower, l, total) && lower.Has(j) && upper.Next() == lower.firstIndex
    ensures j < |r| && upper.Has(r[j].parentIdx) && 0 <= r[j].parentIdx < j && Inside(r[j], r[r[j].parentIdx])
    ensures r[j].length > 0
  {
  }

  /** An index is in one level only. */
  lemma OneLevel(r: seq<OneChunkName>, pli: seq<PerLevelInfo>, total: nat, k: nat, l: nat, q: nat)
    requires Levelled(r, pli, total) && k < |pli| && l < |pli| && pli[k].Has(q) && pli[l].Has(q)
    ensures k == l
  {
    hide Levelled;
    if k < l {
      LevelsApart(r, pli, total, k, l);
    } else if l < k {
      LevelsApart(r, pli, total, l, k);
    }
  }

  lemma TreeLone(r: seq<OneChunkName>, pli: seq<PerLevelInfo>, total: nat, i: nat)
    requires Tree(r, pli, total) && 1 <= i < |pli|
    ensures Lone(r, pli[i - 1], pli[i])
  {
    hide Levelled;
    forall j | 0 < j < |r| && pli[i - 1].Has(r[j].parentIdx) ensures pli[i].Has(j) {
      var l := LevelOfChild(r, pli, total, j);
      OneLevel(r, pli, total, l - 1, i - 1, r[j].parentIdx);
    }
  }

  /** Every chunk above the lowest level of the tree has a child. */
  lemma TreeChild(r: seq<OneChunkName>, pli: seq<PerLevelInfo>, total: nat, l: nat, q: nat) returns (j: nat)
    requires Tree(r, pli, total) && l + 1 < |pli| && pli[l].Has(q)
    ensures pli[l + 1].Has(j) && Child(r, q, j)
  {
    hide Tree, Level, Parented;
    TreePair(r, pli, total, l + 1);
    LevelSome(r, pli[l + 1], l + 1, total);
    LevelEnd(r, pli[l + 1], l + 1, total);
    Positive(r, pli[l], l, total, q);
    j := TileFind(r, pli[l + 1], l + 1, total, r[q].offset, pli[l + 1].Next() - 1);
    ChildInside(r, pli[l], pli[l + 1], l + 1, total, j);
    TileDisjoint(r, pli[l], l, total, q, r[j].parentIdx, r[q].offset);
  }

  lemma LevelEnd(r: seq<OneChunkName>, info: PerLevelInfo, l: nat, total: nat)
    requires Level(r, info, l, total)
    ensures info.Next() <= |r| && r[info.Next() - 1].End() == total
  {
  }

  lemma TreeNested(r: seq<OneChunkName>, pli: seq<PerLevelInfo>, total: nat, low: nat)
    requires Tree(r, pli, total) && low < |pli| && pli[low].Next() <= |r|
    ensures Nested(r, pli[low].firstIndex, pli[low].Next())
  {
    hide Tree, Levelled, Level, Parented, Child;
    var top, bound := pli[low].firstIndex, pli[low].Next();
    TreeLevels(r, pli, total);
    TreeLevel(r, pli, total, low);
    LevelSome(r, pli[low], low, total);
    forall j | 0 < j < |r|
      ensures 0 <= r[j].parentIdx < j && (j < bound ==> r[j].parentIdx < top) && (r[j].parentIdx < top ==> j < bound)
    {
      var l := LevelOfChild(r, pli, total, j);
      Below(r, pli, total, l, low, j);
      Below(r, pli, total, l - 1, low, r[j].parentIdx);
      Ordered(r, pli, total, l, low);
    }
    forall q | 0 <= q < top ensures HasChild(r, q, bound) {
      var l := LevelOfIndex(r, pli, total, q, low);
      Below(r, pli, total, l, low, q);
      var j := TreeChild(r, pli, total, l, q);
      Ordered(r, pli, total, l + 1, low);
    }
    forall q: nat, j: nat | 0 <= q < top && Child(r, q, j) ensures q < j < bound {
      ChildMeans(r, q, j);
    }
  }

  lemma ChildMeans(r: seq<OneChunkName>, q: nat, j: nat)
    requires Child(r, q, j)
    ensures 0 < j < |r| && r[j].parentIdx == q
  {
  }

  lemma TreeLevels(r: seq<OneChunkName>, pli: seq<PerLevelInfo>, total: nat)
    requires Tree(r, pli, total)
    ensures Levelled(r, pli, total)
  {
  }

  /** Index q of level l is before level low, or in it, exactly when its level is. */
  lemma Below(r: seq<OneChunkName>, pli: seq<PerLevelInfo>, total: nat, l: nat, low: nat, q: nat)
    requires Levelled(r, pli, total) && l < |pli| && low < |pli| && pli[l].Has(q)
    ensures q < pli[low].firstIndex <==> l < low
    ensures q < pli[low].Next() <==> l <= low
  {
    hide Levelled;
    if l < low {
      LevelsApart(r, pli, total, l, low);
    } else if low < l {
      LevelsApart(r, pli, total, low, l);
    }
  }

  lemma Ordered(r: seq<OneChunkName>, pli: seq<PerLevelInfo>, total: nat, l: nat, low: nat)
    requires Levelled(r, pli, total) && l < |pli| && low < |pli|
    ensures l <= low ==> pli[l].Next() <= pli[low].Next()
  {
    hide Levelled;
    if l < low {
      LevelsApart(r, pli, total, l, low);
    }
  }

  /** Hits pass down the whole resolved part of the tree. */
  lemma ReadyPassed(r: seq<OneChunkName>, pli: seq<PerLevelInfo>, total: nat, low: nat)
    requires Ready(r, pli, total, low) && pli[low].Next() <= |r|
    ensures PassedDown(r, HitSet(r), pli[low].Next())
  {
    hide Tree, Levelled, Inherited;
    TreeLevels(r, pli, total);
    forall j | 0 < j < pli[low].Next() && r[j].parentIdx >= 0 && r[j].parentIdx in HitSet(r) ensures j in HitSet(r) {
      var l := LevelOfChild(r, pli, total, j);
      Below(r, pli, total, l, low, j);
      HitPassed(r, pli[l], j);
    }
  }

  lemma HitPassed(r: seq<OneChunkName>, lower: PerLevelInfo, j: nat)
    requires Inherited(r, lower) && lower.Has(j) && 0 <= r[j].parentIdx < |r| && r[r[j].parentIdx].isHit
    ensures r[j].isHit
  {
  }

  lemma RisingStart(r: seq<OneChunkName>, s: seq<OneChunkName>, pli: seq<PerLevelInfo>, total: nat, low: nat)
    requires Ready(r, pli, total, low) && pli[low].Next() <= |r| && OnlyCands(r, s)
    requires CandsOf(s) == Range(pli[low].firstIndex, pli[low].Next())
    ensures Rising(r, s, pli, total, pli[low].firstIndex, pli[low].Next(), low)
  {
    hide OnlyCands, Merging, Tree, Level, Parented, Cover;
    if low == 0 {
      TreeLevel(r, pli, total, 0);
      RootInfo(r, pli, total);
      LevelCovers(r, pli[0], 0, total);
    } else {
      TreePair(r, pli, total, low);
      MergingStart(r, HitSet(r), pli[low - 1], pli[low], low - 1, total);
      FirstFamily(r, pli[low - 1], pli[low], low - 1, total);
      LevelRange(r, pli[low], low, total);
    }
  }

  lemma RootInfo(r: seq<OneChunkName>, pli: seq<PerLevelInfo>, total: nat)
    requires Tree(r, pli, total)
    ensures pli != [] && pli[0] == PerLevelInfo(1, 0) && |r| > 0
  {
    assert Level(r, pli[0], 0, total);
  }

  lemma RisingStep(r: seq<OneChunkName>, s: seq<OneChunkName>, pli: seq<PerLevelInfo>, total: nat, top: nat, bound: nat,
                   i: nat)
    requires Tree(r, pli, total) && 1 <= i < |pli|
    requires MergedTo(r, s, pli[i - 1], pli[i], total, top, bound, pli[i].Next())
    ensures Rising(r, s, pli, total, top, bound, i - 1)
  {
    hide OnlyCands, Tree, Level, Parented, Cover, Merging, Exact;
    TreePair(r, pli, total, i);
    assert StartOf(r, pli[i], total, pli[i].Next()) == total;
    if i == 1 {
      MergingDone(r, HitSet(r), CandsOf(s), top, bound, pli[0], pli[1], 0, total);
    } else {
      TreePair(r, pli, total, i - 1);
      MergingNext(r, HitSet(r), CandsOf(s), top, bound, pli[i - 2], pli[i - 1], pli[i], i - 2, total);
      FirstFamily(r, pli[i - 2], pli[i - 1], i - 2, total);
      LevelRange(r, pli[i - 1], i - 1, total);
    }
  }

  /** Flushing the root changes nothing. */
  lemma FlushRoot(hit: set<nat>, cands: set<nat>)
    ensures AfterFlush(hit, cands, SetOf([0]), 0) == cands
  {
    assert SetOf([0]) == {0};
    assert 0 in cands ==> cands - {0} + {0} == cands;
  }

  /** At the root the choice is complete. */
  lemma RisenChosen(r: seq<OneChunkName>, s: seq<OneChunkName>, pli: seq<PerLevelInfo>, total: nat, low: nat)
    requires Ready(r, pli, total, low) && pli[low].Next() <= |r|
    requires Rising(r, s, pli, total, pli[low].firstIndex, pli[low].Next(), 0)
    ensures Chosen(r, s, total, pli[low].firstIndex, pli[low].Next())
  {
    hide Tree, Nested, Solid, Cover, OnlyCands, PassedDown;
    var top, bound := pli[low].firstIndex, pli[low].Next();
    TreeNested(r, pli, total, low);
    ReadyPassed(r, pli, total, low);
    forall c | c in CandsOf(s) && c > 0 ensures r[c].parentIdx !in HitSet(r) {
      ParentBefore(r, top, bound, c);
      if r[c].parentIdx in HitSet(r) {
        HitSolid(r, HitSet(r), top, bound, r[c].parentIdx);
      }
    }
  }

  lemma ParentBefore(r: seq<OneChunkName>, top: nat, bound: nat, c: nat)
    requires Nested(r, top, bound) && 0 < c < bound
    ensures c < |r| && 0 <= r[c].parentIdx < bound
  {
  }

  /** The children of q are not all candidates and all hits, nor all candidates and all misses. */
  ghost predicate Kept(s: seq<OneChunkName>, q: nat) {
    exists i: nat, j: nat :: Child(s, q, i) && Child(s, q, j) && (!s[i].isCandidate || s[i].isHit != s[j].isHit)
  }

  lemma ChosenKept(r: seq<OneChunkName>, s: seq<OneChunkName>, total: nat, top: nat, bound: nat, q: nat)
    requires Chosen(r, s, total, top, bound) && q < top
    ensures Kept(s, q)
  {
    hide Cover, Exact, Nested;
    NoFamilyLeft(r, HitSet(r), CandsOf(s), top, bound, q);
    var i: nat, j: nat :| Child(r, q, i) && Child(r, q, j) && (i !in CandsOf(s) || (i in HitSet(r) && j !in HitSet(r)));
    assert Child(s, q, i) && Child(s, q, j);
  }

  /** Mark the lowest level, then merge level after level up to the root. */
  method ChooseCandidates(a: array<OneChunkName>, pli: seq<PerLevelInfo>, lowLevel: nat, ways: nat, ghost total: nat)
    requires lowLevel < |pli| && Ready(a[..], pli, total, lowLevel) && (ways == 1 ==> lowLevel == 0)
    modifies a
    ensures pli[lowLevel].Next() <= |old(a[..])|
    ensures Chosen(old(a[..]), a[..], total, pli[lowLevel].firstIndex, pli[lowLevel].Next())
    ensures forall q :: 0 <= q < pli[lowLevel].firstIndex ==> Kept(a[..], q)
  {
    hide Tree, Level, Parented, OnlyCands, MergedTo, Chosen, Cover, Inherited, CandsOf, HitSet, AfterFlush, Lone, Kept;
    hide Exact;
    ghost var r := a[..];
    TreeLevel(r, pli, total, lowLevel);
    RootInfo(r, pli, total);
    OnlyCandsRefl(r);
    var leaves := RangeSeq(pli[lowLevel].firstIndex, pli[lowLevel].Next());
    MarkAll(a, leaves, true, r);
    RangeSeqSet(pli[lowLevel].firstIndex, pli[lowLevel].Next());
    ghost var top, bound := pli[lowLevel].firstIndex, pli[lowLevel].Next();
    RisingStart(r, a[..], pli, total, lowLevel);
    if ways != 1 {
      var i: int := lowLevel;
      while i >= 0
        invariant -1 <= i <= lowLevel
        invariant Rising(r, a[..], pli, total, top, bound, i)
      {
        if i > 0 {
          TreePair(r, pli, total, i);
          TreeLone(r, pli, total, i);
          LowerFirst(r, pli, total, i, lowLevel);
          MergeLevel(a, pli[i], r, pli[i - 1], i - 1, total, top, bound);
          RisingStep(r, a[..], pli, total, top, bound, i);
        } else {
          ghost var s := a[..];
          RootFrame(r, s, total);
          FlushRoot(HitSet(s), CandsOf(s));
          FlushChildren(a, [0], r);
        }
        i := i - 1;
      }
    }
    RisenChosen(r, a[..], pli, total, lowLevel);
    forall q | 0 <= q < top ensures Kept(a[..], q) {
      ChosenKept(r, a[..], total, top, bound, q);
    }
  }

  lemma LowerFirst(r: seq<OneChunkName>, pli: seq<PerLevelInfo>, total: nat, i: nat, low: nat)
    requires Tree(r, pli, total) && i <= low < |pli|
    ensures pli[i].firstIndex <= pli[low].firstIndex
  {
    if i < low {
      LevelsApart(r, pli, total, i, low);
    }
  }

  lemma OnlyCandsRefl(r: seq<OneChunkName>)
    ensures OnlyCands(r, r)
  {
  }

  lemma RootFrame(r: seq<OneChunkName>, s: seq<OneChunkName>, total: nat)
    requires OnlyCands(r, s)
    ensures |r| == |s|
  {
  }
}
