/**
 Full-tree mode at the receiver: the chunks that rebuild the block, in byte order
 (GetChunkNameList2, MissingChunkPolicy and CompareChunkIndex, waprox/mrc_tree.c).
 */
module TreeCover {
  import opened ChunkNames
  import opened MrcTree
  import opened FullTree
  import opened Candidates
  import opened CandidateList
  import opened CandidateOrder
  import opened Sender
  import opened TreeLookup

  /** The first low levels are resolved, and they are all there are unless the last of them has every chunk. */
  ghost predicate ResolvedTree(g: seq<OneChunkName>, pli: seq<PerLevelInfo>, total: nat, st: seq<bool>, low: nat) {
    && Tree(g, pli, total) && |st| == |g| && low < |pli|
    && (forall l, j :: 0 < l <= low && pli[l].Has(j) && ParentHit(g, st, j) ==> st[j])
    && (low == |pli| - 1 || forall j :: pli[low].Has(j) ==> st[j])
  }

  /** A chunk is used when it is the highest hit above its bytes, or a leaf without one. */
  ghost predicate Selected(g: seq<OneChunkName>, pli: seq<PerLevelInfo>, st: seq<bool>, low: nat, i: nat) {
    && i < |g| == |st| && low < |pli| && i < pli[low].Next() && !ParentHit(g, st, i)
    && (g[i].level == |pli| - 1 || st[i])
  }

  ghost function SelectedSet(g: seq<OneChunkName>, pli: seq<PerLevelInfo>, st: seq<bool>, low: nat): set<nat> {
    set i: nat | i < |g| && Selected(g, pli, st, low, i)
  }

  // ---------------------------------------------------------------- geometry of the tree

  lemma TreeParent(g: seq<OneChunkName>, pli: seq<PerLevelInfo>, total: nat, l: nat, j: nat)
    requires Tree(g, pli, total) && 0 < l < |pli| && pli[l].Has(j)
    ensures 0 < j < |g| && 0 <= g[j].parentIdx < |g| && pli[l - 1].Has(g[j].parentIdx)
    ensures Inside(g[j], g[g[j].parentIdx])
    ensures Level(g, pli[l], l, total) && Level(g, pli[l - 1], l - 1, total)
  {
    hide Tree, Level, Parented, Pair;
    TreeAt(g, pli, total, l - 1);
    LevelRange(g, pli[l - 1], l - 1, total);
    ParentIn(g, pli[l - 1], pli[l], j);
  }

  lemma TreeEntry(g: seq<OneChunkName>, pli: seq<PerLevelInfo>, total: nat, l: nat, j: nat)
    requires Tree(g, pli, total) && l < |pli| && pli[l].Has(j)
    ensures j < |g| && g[j].level == l && g[j].length > 0 && g[j].End() <= total && Level(g, pli[l], l, total)
  {
    hide Level;
    LevelledAt(g, pli, total, l);
    LevelEntry(g, pli[l], l, total, j);
    TileBound(g, pli[l], l, total, j);
  }

  /** A chunk that shares a byte with a chunk of a higher level lies inside it. */
  lemma {:induction false} Nested(g: seq<OneChunkName>, pli: seq<PerLevelInfo>, total: nat, lc: nat, c: nat, lx: nat,
                                  x: nat, p: nat)
    requires Tree(g, pli, total) && lc <= lx < |pli| && pli[lc].Has(c) && pli[lx].Has(x) && c < |g| && x < |g|
    requires Contains(g[c], p) && Contains(g[x], p)
    ensures Inside(g[x], g[c])
    decreases lx
  {
    hide Tree, Level;
    if lc == lx {
      TreeEntry(g, pli, total, lc, c);
      TileDisjoint(g, pli[lc], lc, total, c, x, p);
    } else {
      TreeParent(g, pli, total, lx, x);
      Nested(g, pli, total, lc, c, lx - 1, g[x].parentIdx, p);
    }
  }

  // ---------------------------------------------------------------- the selection is a cover

  /** Chunks below a hit are hits. */
  lemma {:induction false} HitBelow(g: seq<OneChunkName>, pli: seq<PerLevelInfo>, total: nat, st: seq<bool>, low: nat,
                                    lc: nat, c: nat, lx: nat, x: nat, p: nat)
    requires ResolvedTree(g, pli, total, st, low) && lc <= lx <= low && pli[lc].Has(c) && pli[lx].Has(x) && c < |g|
    requires x < |g|
    requires Contains(g[c], p) && Contains(g[x], p) && st[c]
    ensures st[x]
    decreases lx
  {
    hide Tree, Level;
    if lc == lx {
      TreeEntry(g, pli, total, lc, c);
      TileDisjoint(g, pli[lc], lc, total, c, x, p);
    } else {
      TreeParent(g, pli, total, lx, x);
      HitBelow(g, pli, total, st, low, lc, c, lx - 1, g[x].parentIdx, p);
    }
  }

  /** Below a chunk without a hit above it there is a selected chunk for each of its bytes. */
  lemma {:induction false} FindSelected(g: seq<OneChunkName>, pli: seq<PerLevelInfo>, total: nat, st: seq<bool>,
                                        low: nat, l: nat, q: nat, p: nat)
    returns (c: nat)
    requires ResolvedTree(g, pli, total, st, low) && l <= low && pli[l].Has(q) && q < |g| && Contains(g[q], p)
    requires !ParentHit(g, st, q)
    ensures Selected(g, pli, st, low, c) && Contains(g[c], p)
    decreases low - l
  {
    hide Tree, Level;
    TreeEntry(g, pli, total, l, q);
    IndexBound(g, pli, total, l, low, q);
    if st[q] || l == low {
      c := q;
    } else {
      LevelledIn(g, pli, total, l + 1);
      ghost var last := pli[l + 1].Next() - 1;
      LevelEntry(g, pli[l + 1], l + 1, total, last);
      var j := TileFind(g, pli[l + 1], l + 1, total, p, last);
      TreeParent(g, pli, total, l + 1, j);
      TileDisjoint(g, pli[l], l, total, g[j].parentIdx, q, p);
      c := FindSelected(g, pli, total, st, low, l + 1, j, p);
    }
  }

  lemma LevelledIn(g: seq<OneChunkName>, pli: seq<PerLevelInfo>, total: nat, l: nat)
    requires Tree(g, pli, total) && l < |pli|
    ensures Level(g, pli[l], l, total) && pli[l].numNames > 0 && pli[l].Next() <= |g|
  {
    hide Level;
    LevelledAt(g, pli, total, l);
    LevelRange(g, pli[l], l, total);
  }

  lemma IndexBound(g: seq<OneChunkName>, pli: seq<PerLevelInfo>, total: nat, l: nat, low: nat, q: nat)
    requires Tree(g, pli, total) && l <= low < |pli| && pli[l].Has(q)
    ensures q < pli[low].Next()
  {
    if l < low {
      TreeApart(g, pli, total, l, low);
    }
  }

  lemma LevelOf(g: seq<OneChunkName>, pli: seq<PerLevelInfo>, total: nat, low: nat, i: nat) returns (l: nat)
    requires Tree(g, pli, total) && low < |pli| && i < pli[low].Next()
    ensures l <= low && pli[l].Has(i)
  {
    l := LevelOfIndex(g, pli, total, i, low);
  }

  /** No byte is selected twice: below a selected chunk that is not a leaf everything has a hit above it. */
  lemma SelectedOnce(g: seq<OneChunkName>, pli: seq<PerLevelInfo>, total: nat, st: seq<bool>, low: nat, lc: nat, c: nat,
                     ld: nat, d: nat, p: nat)
    requires ResolvedTree(g, pli, total, st, low) && lc <= ld <= low && pli[lc].Has(c) && pli[ld].Has(d)
    requires Selected(g, pli, st, low, c) && Selected(g, pli, st, low, d) && Contains(g[c], p) && Contains(g[d], p)
    ensures c == d
  {
    hide Tree, Level;
    TreeEntry(g, pli, total, lc, c);
    if lc == ld {
      TileDisjoint(g, pli[lc], lc, total, c, d, p);
    } else {
      TreeParent(g, pli, total, ld, d);
      HitBelow(g, pli, total, st, low, lc, c, ld - 1, g[d].parentIdx, p);
    }
  }

  lemma SelectedCover(g: seq<OneChunkName>, pli: seq<PerLevelInfo>, total: nat, st: seq<bool>, low: nat)
    requires ResolvedTree(g, pli, total, st, low)
    ensures Cover(g, SelectedSet(g, pli, st, low), total)
  {
    hide Tree, Level, Selected, ResolvedTree;
    ResolvedIsTree(g, pli, total, st, low);
    var cands := SelectedSet(g, pli, st, low);
    forall c | c in cands ensures c < |g| && g[c].length > 0 && g[c].End() <= total {
      SelectedRange(g, pli, st, low, c);
      var l := LevelOf(g, pli, total, low, c);
      TreeEntry(g, pli, total, l, c);
    }
    forall p: nat | p < total ensures Covered(g, cands, p) {
      TreeRoot(g, pli, total);
      LevelledIn(g, pli, total, 0);
      RootOffset(g, pli, total);
      var c := FindSelected(g, pli, total, st, low, 0, 0, p);
      SelectedRange(g, pli, st, low, c);
      assert c in cands;
    }
    forall c, d, p: nat | c in cands && d in cands && Contains(g[c], p) && Contains(g[d], p) ensures c == d {
      SelectedRange(g, pli, st, low, c);
      SelectedRange(g, pli, st, low, d);
      var lc := LevelOf(g, pli, total, low, c);
      var ld := LevelOf(g, pli, total, low, d);
      if lc <= ld {
        SelectedOnce(g, pli, total, st, low, lc, c, ld, d, p);
      } else {
        SelectedOnce(g, pli, total, st, low, ld, d, lc, c, p);
      }
    }
  }

  lemma ResolvedIsTree(g: seq<OneChunkName>, pli: seq<PerLevelInfo>, total: nat, st: seq<bool>, low: nat)
    requires ResolvedTree(g, pli, total, st, low)
    ensures Tree(g, pli, total) && |st| == |g| && low < |pli|
  {
  }

  lemma SelectedRange(g: seq<OneChunkName>, pli: seq<PerLevelInfo>, st: seq<bool>, low: nat, c: nat)
    requires Selected(g, pli, st, low, c)
    ensures c < |g| && low < |pli| && c < pli[low].Next()
  {
  }

  lemma RootOffset(g: seq<OneChunkName>, pli: seq<PerLevelInfo>, total: nat)
    requires Tree(g, pli, total)
    ensures |g| > 0 && g[0].offset == 0 && g[0].length == total
  {
    TreeLevelled(g, pli, total);
    RootLength(g, pli, total);
  }

  // ---------------------------------------------------------------- listing the selection

  ghost function SumLengths(g: seq<OneChunkName>, s: seq<nat>): nat
    requires forall k :: 0 <= k < |s| ==> s[k] < |g|
  {
    if s == [] then 0 else g[s[0]].length + SumLengths(g, s[1..])
  }

  lemma {:induction false} SumAppend(g: seq<OneChunkName>, s: seq<nat>, x: nat)
    requires (forall k :: 0 <= k < |s| ==> s[k] < |g|) && x < |g|
    ensures SumLengths(g, s + [x]) == SumLengths(g, s) + g[x].length
  {
    if s == [] {
      assert [] + [x] == [x] && [x][1..] == [];
    } else {
      SumAppend(g, s[1..], x);
      assert (s + [x])[1..] == s[1..] + [x];
    }
  }

  lemma {:induction false} SumInsert(g: seq<OneChunkName>, s: seq<nat>, x: nat)
    requires (forall k :: 0 <= k < |s| ==> s[k] < |g|) && x < |g|
    ensures SumLengths(g, Insert(g, s, x)) == SumLengths(g, s) + g[x].length
  {
    if s == [] {
      assert [x][1..] == [];
    } else if g[x].offset <= g[s[0]].offset {
      assert ([x] + s)[1..] == s;
    } else {
      SumInsert(g, s[1..], x);
      assert ([s[0]] + Insert(g, s[1..], x))[1..] == Insert(g, s[1..], x);
    }
  }

  lemma {:induction false} SumSort(g: seq<OneChunkName>, s: seq<nat>)
    requires forall k :: 0 <= k < |s| ==> s[k] < |g|
    ensures SumLengths(g, Sort(g, s)) == SumLengths(g, s)
  {
    if s != [] {
      SumSort(g, s[1..]);
      SumInsert(g, Sort(g, s[1..]), s[0]);
    }
  }

  lemma {:induction false} SumInOrder(g: seq<OneChunkName>, s: seq<nat>, start: nat, total: nat)
    requires InOrder(g, s, start, total) && (forall k :: 0 <= k < |s| ==> s[k] < |g|)
    ensures start + SumLengths(g, s) == total
  {
    if s != [] {
      SumInOrder(g, s[1..], g[s[0]].End(), total);
    }
  }

  /** The selected names before index k, in array order. */
  ghost function SelectedList(g: seq<OneChunkName>, pli: seq<PerLevelInfo>, st: seq<bool>, low: nat,
                              k: nat): (s: seq<nat>)
    ensures forall x :: 0 <= x < |s| ==> s[x] < |g| && s[x] < k
  {
    if k == 0 then []
    else if Selected(g, pli, st, low, k - 1) then SelectedList(g, pli, st, low, k - 1) + [k - 1]
    else SelectedList(g, pli, st, low, k - 1)
  }

  ghost predicate Ascending(s: seq<nat>) {
    forall x, y :: 0 <= x < y < |s| ==> s[x] < s[y]
  }

  lemma {:induction false} SelectedListed(g: seq<OneChunkName>, pli: seq<PerLevelInfo>, st: seq<bool>, low: nat, k: nat)
    ensures forall i: nat :: i in SelectedList(g, pli, st, low, k) <==> i < k && Selected(g, pli, st, low, i)
    ensures Ascending(SelectedList(g, pli, st, low, k))
  {
    hide Selected;
    if k > 0 {
      SelectedListed(g, pli, st, low, k - 1);
      var t := SelectedList(g, pli, st, low, k - 1);
      assert forall x :: 0 <= x < |t| ==> t[x] < k - 1;
      assert Ascending(t) && Ascending(t + [k - 1]);
    }
  }

  /** Sorted by offset, the selection tiles the block; hence its lengths add up to the root. */
  lemma SelectionTiles(g: seq<OneChunkName>, pli: seq<PerLevelInfo>, total: nat, st: seq<bool>, low: nat, s: seq<nat>)
    requires ResolvedTree(g, pli, total, st, low) && s == SelectedList(g, pli, st, low, pli[low].Next())
    ensures InOrder(g, Sort(g, s), 0, total) && SumLengths(g, s) == total
  {
    hide ResolvedTree, Selected, InOrder, Cover, CoverList, Sort, SelectedList;
    ResolvedIsTree(g, pli, total, st, low);
    SelectedCover(g, pli, total, st, low);
    SelectedListed(g, pli, st, low, pli[low].Next());
    forall i: nat ensures i in SelectedSet(g, pli, st, low) <==> i in s {
      if Selected(g, pli, st, low, i) {
        SelectedRange(g, pli, st, low, i);
      }
    }
    SortDistinct(g, s);
    SortSorted(g, s);
    CoverListOf(g, SelectedSet(g, pli, st, low), Sort(g, s), total);
    SortedCoverTiles(g, Sort(g, s), 0, total);
    SumInOrder(g, Sort(g, s), 0, total);
    SumSort(g, s);
  }

  /** Later names only add to the list, and to its length when there are any. */
  lemma {:induction false} ListGrows(g: seq<OneChunkName>, pli: seq<PerLevelInfo>, total: nat, st: seq<bool>, low: nat,
                                     k: nat, n: nat)
    requires ResolvedTree(g, pli, total, st, low) && k <= n
    ensures var a, b := SelectedList(g, pli, st, low, k), SelectedList(g, pli, st, low, n);
            SumLengths(g, a) <= SumLengths(g, b) && (SumLengths(g, a) == SumLengths(g, b) ==> a == b)
    decreases n
  {
    hide ResolvedTree, Selected;
    if k < n {
      ListGrows(g, pli, total, st, low, k, n - 1);
      if Selected(g, pli, st, low, n - 1) {
        SelectedPositive(g, pli, total, st, low, n - 1);
        SumAppend(g, SelectedList(g, pli, st, low, n - 1), n - 1);
      }
    }
  }

  lemma SelectedPositive(g: seq<OneChunkName>, pli: seq<PerLevelInfo>, total: nat, st: seq<bool>, low: nat, i: nat)
    requires ResolvedTree(g, pli, total, st, low) && Selected(g, pli, st, low, i)
    ensures i < |g| && g[i].length > 0
  {
    hide Tree;
    var l := LevelOf(g, pli, total, low, i);
    TreeEntry(g, pli, total, l, i);
  }

  /** What the branches of GetChunkNameList2 come to, for a name of a resolved level. */
  lemma BranchSelects(g: seq<OneChunkName>, pli: seq<PerLevelInfo>, total: nat, st: seq<bool>, low: nat, i: nat)
    requires ResolvedTree(g, pli, total, st, low) && i < pli[low].Next()
    ensures i < |g| == |st| && (i > 0 ==> 0 <= g[i].parentIdx < i)
    ensures g[i].level == 0 <==> i == 0
    ensures i > 0 && st[g[i].parentIdx] ==> st[i]
    ensures i == 0 ==> (Selected(g, pli, st, low, i) <==> |pli| == 1 || st[0])
    ensures i > 0 ==> (Selected(g, pli, st, low, i) <==> !st[g[i].parentIdx] && (g[i].level == |pli| - 1 || st[i]))
  {
    hide Tree, Level;
    var l := LevelOf(g, pli, total, low, i);
    TreeEntry(g, pli, total, l, i);
    TreeRoot(g, pli, total);
    if l > 0 {
      TreeParent(g, pli, total, l, i);
      TreeApart(g, pli, total, l - 1, l);
    }
  }

  /**
   The names whose chunks rebuild the block, in array order: all of them and no others, although the
   loop stops as soon as their lengths add up.
   */
  method GetChunkNameList2(pNames: seq<OneChunkName>, pli: seq<PerLevelInfo>, chunkState: array<bool>, ghost low: nat,
                           ghost total: nat)
    returns (result: seq<nat>)
    requires ResolvedTree(pNames, pli, total, chunkState[..], low)
    ensures result == SelectedList(pNames, pli, chunkState[..], low, pli[low].Next())
  {
    hide ResolvedTree, Selected, SumLengths, Tree;
    ghost var st := chunkState[..];
    ResolvedIsTree(pNames, pli, total, st, low);
    ghost var n := pli[low].Next();
    TreeRoot(pNames, pli, total);
    SelectionTiles(pNames, pli, total, st, low, SelectedList(pNames, pli, st, low, n));
    LevelledIn(pNames, pli, total, low);
    var totLength := pNames[0].length;
    var offset := 0;
    result := [];
    SumNone(pNames);
    for i := 0 to |pNames|
      invariant i <= n && result == SelectedList(pNames, pli, st, low, i)
      invariant offset == SumLengths(pNames, result) < total
    {
      ListGrows(pNames, pli, total, st, low, i, n);
      BranchSelects(pNames, pli, total, st, low, i);
      var parent := if i == 0 then 0 else pNames[i].parentIdx;
      var level := pNames[i].level;
      var add;
      if level == |pli| - 1 {
        add := level == 0 || !chunkState[parent];
      } else if !chunkState[parent] {
        add := chunkState[i];
      } else {
        add := i == 0;
      }
      if add {
        SumAppend(pNames, result, i);
        result := result + [i];
        offset := offset + pNames[i].length;
      }
      if offset == totLength {
        ListGrows(pNames, pli, total, st, low, i + 1, n);
        return;
      }
      ListGrows(pNames, pli, total, st, low, i + 1, n);
    }
  }

  lemma SumNone(g: seq<OneChunkName>)
    ensures SumLengths(g, []) == 0
  {
  }

  // ---------------------------------------------------------------- byte order

  ghost predicate ParentsBelow(g: seq<OneChunkName>) {
    forall i :: 0 < i < |g| ==> 0 <= g[i].parentIdx < |g|
  }

  /** CompareChunkIndex: climb from the deeper chunk to the level of the other, then compare indices. */
  ghost function Climb(g: seq<OneChunkName>, c: nat, lc: nat, d: nat, ld: nat): int
    requires c < |g| && d < |g| && ParentsBelow(g)
    decreases lc + ld
  {
    if lc < ld then Climb(g, c, lc, Parent(g, d), ld - 1)
    else if lc > ld then Climb(g, Parent(g, c), lc - 1, d, ld)
    else if c < d then -1 else if c > d then 1 else 0
  }

  /** The two chunks have no byte in common. */
  ghost predicate Apart(a: OneChunkName, b: OneChunkName) {
    a.End() <= b.offset || b.End() <= a.offset
  }

  /** Climbing one step keeps chunks apart, and on the same side. */
  lemma ClimbApart(g: seq<OneChunkName>, pli: seq<PerLevelInfo>, total: nat, lc: nat, c: nat, ld: nat, d: nat)
    requires Tree(g, pli, total) && lc < ld < |pli| && pli[lc].Has(c) && pli[ld].Has(d) && c < |g| && d < |g|
    requires Apart(g[c], g[d])
    ensures var q := g[d].parentIdx;
            && 0 <= q < |g| && 0 < d && pli[ld - 1].Has(q) && Apart(g[c], g[q])
            && (g[c].offset < g[q].offset <==> g[c].offset < g[d].offset)
  {
    hide Tree, Level;
    TreeEntry(g, pli, total, lc, c);
    TreeEntry(g, pli, total, ld, d);
    TreeParent(g, pli, total, ld, d);
    var q := g[d].parentIdx;
    TreeEntry(g, pli, total, ld - 1, q);
    if !Apart(g[c], g[q]) {
      var p := if g[c].offset >= g[q].offset then g[c].offset else g[q].offset;
      Nested(g, pli, total, lc, c, ld - 1, q, p);
    }
  }

  /** On chunks that are apart the comparison is that of their offsets, and it is never equality. */
  lemma {:induction false} ClimbOrders(g: seq<OneChunkName>, pli: seq<PerLevelInfo>, total: nat, lc: nat, c: nat,
                                       ld: nat, d: nat)
    requires Tree(g, pli, total) && lc < |pli| && ld < |pli| && pli[lc].Has(c) && pli[ld].Has(d) && c < |g| && d < |g|
    requires Apart(g[c], g[d])
    requires ParentsBelow(g)
    ensures Climb(g, c, lc, d, ld) == if g[c].offset < g[d].offset then -1 else 1
    decreases lc + ld
  {
    hide Tree, Level, ParentsBelow;
    if lc < ld {
      ClimbApart(g, pli, total, lc, c, ld, d);
      ClimbOrders(g, pli, total, lc, c, ld - 1, g[d].parentIdx);
    } else if ld < lc {
      ClimbApart(g, pli, total, ld, d, lc, c);
      ClimbSides(g, pli, total, lc, c, ld, d);
      ClimbOrders(g, pli, total, lc - 1, g[c].parentIdx, ld, d);
    } else {
      SameLevelOrder(g, pli, total, lc, c, d);
    }
  }

  lemma ClimbSides(g: seq<OneChunkName>, pli: seq<PerLevelInfo>, total: nat, lc: nat, c: nat, ld: nat, d: nat)
    requires Tree(g, pli, total) && ld < lc < |pli| && pli[ld].Has(d) && pli[lc].Has(c) && c < |g| && d < |g|
    requires Apart(g[c], g[d])
    ensures var q := g[c].parentIdx; 0 <= q < |g| && (g[q].offset < g[d].offset <==> g[c].offset < g[d].offset)
  {
    hide Tree, Level;
    ClimbApart(g, pli, total, ld, d, lc, c);
    TreeParent(g, pli, total, lc, c);
    TreeEntry(g, pli, total, lc, c);
    TreeEntry(g, pli, total, ld, d);
  }

  lemma SameLevelOrder(g: seq<OneChunkName>, pli: seq<PerLevelInfo>, total: nat, l: nat, c: nat, d: nat)
    requires Tree(g, pli, total) && l < |pli| && pli[l].Has(c) && pli[l].Has(d) && c < |g| && d < |g|
    requires Apart(g[c], g[d])
    ensures c != d && (c < d <==> g[c].offset < g[d].offset)
  {
    hide Tree, Level;
    TreeEntry(g, pli, total, l, c);
    TreeEntry(g, pli, total, l, d);
    if c < d {
      TileOrder(g, pli[l], l, total, c, d);
    } else if d < c {
      TileOrder(g, pli[l], l, total, d, c);
    }
  }

  /** The loop of CompareChunkIndex; for two chunks of one cover the answer is their byte order. */
  method CompareChunkIndex(pNames: seq<OneChunkName>, p1: nat, p2: nat, ghost pli: seq<PerLevelInfo>, ghost total: nat)
    returns (r: int)
    requires Tree(pNames, pli, total) && p1 < |pNames| && p2 < |pNames| && Apart(pNames[p1], pNames[p2])
    ensures r == (if pNames[p1].offset < pNames[p2].offset then -1 else 1)
  {
    hide Tree, Apart;
    TreeParents(pNames, pli, total);
    ghost var l1 := TreeLevelOf(pNames, pli, total, p1);
    ghost var l2 := TreeLevelOf(pNames, pli, total, p2);
    ClimbOrders(pNames, pli, total, l1, p1, l2, p2);
    var index1, index2 := p1, p2;
    var level1, level2 := pNames[p1].level, pNames[p2].level;
    while level1 != level2
      invariant 0 <= index1 < |pNames| && 0 <= index2 < |pNames|
      invariant Climb(pNames, index1, level1, index2, level2) == Climb(pNames, p1, l1, p2, l2)
      decreases level1 + level2
    {
      if level1 < level2 {
        index2 := if index2 == 0 then 0 else pNames[index2].parentIdx;
        level2 := level2 - 1;
      } else {
        index1 := if index1 == 0 then 0 else pNames[index1].parentIdx;
        level1 := level1 - 1;
      }
    }
    r := if index1 < index2 then -1 else if index1 > index2 then 1 else 0;
  }

  lemma TreeLevelOf(g: seq<OneChunkName>, pli: seq<PerLevelInfo>, total: nat, i: nat) returns (l: nat)
    requires Tree(g, pli, total) && i < |g|
    ensures l < |pli| && pli[l].Has(i) && g[i].level == l
  {
    TreeLevelled(g, pli, total);
    hide Tree;
    LevelledLast(g, pli, total, |pli| - 1);
    l := LevelOf(g, pli, total, |pli| - 1, i);
    TreeEntry(g, pli, total, l, i);
  }

  lemma TreeParents(g: seq<OneChunkName>, pli: seq<PerLevelInfo>, total: nat)
    requires Tree(g, pli, total)
    ensures ParentsBelow(g)
  {
    hide Tree;
    forall i | 0 < i < |g| ensures 0 <= g[i].parentIdx < |g| {
      var l := TreeLevelOf(g, pli, total, i);
      TreeRoot(g, pli, total);
      if l > 0 {
        TreeParent(g, pli, total, l, i);
      }
    }
  }

  // ---------------------------------------------------------------- the request list

  /** Different chunks of a cover are apart. */
  lemma CoverApart(g: seq<OneChunkName>, cands: set<nat>, total: nat, c: nat, d: nat)
    requires Cover(g, cands, total) && c in cands && d in cands && c != d
    ensures c < |g| && d < |g| && Apart(g[c], g[d])
  {
    if !Apart(g[c], g[d]) {
      var p := if g[c].offset >= g[d].offset then g[c].offset else g[d].offset;
      assert Contains(g[c], p) && Contains(g[d], p);
    }
  }

  /** Sort x into s with CompareChunkIndex. */
  method InsertByCompare(pNames: seq<OneChunkName>, s: seq<nat>, x: nat, ghost cands: set<nat>,
                         ghost pli: seq<PerLevelInfo>, ghost total: nat)
    returns (r: seq<nat>)
    requires Tree(pNames, pli, total) && Cover(pNames, cands, total) && x < |pNames| && x in cands
    requires forall k :: 0 <= k < |s| ==> s[k] < |pNames| && s[k] in cands && s[k] != x
    ensures r == Insert(pNames, s, x)
    decreases |s|
  {
    hide Tree, Cover;
    if |s| == 0 {
      return [x];
    }
    CoverApart(pNames, cands, total, x, s[0]);
    CoverPositive(pNames, cands, total, x);
    CoverPositive(pNames, cands, total, s[0]);
    var c := CompareChunkIndex(pNames, x, s[0], pli, total);
    if c < 0 {
      r := [x] + s;
    } else {
      r := InsertByCompare(pNames, s[1..], x, cands, pli, total);
      r := [s[0]] + r;
    }
  }

  lemma CoverPositive(g: seq<OneChunkName>, cands: set<nat>, total: nat, c: nat)
    requires Cover(g, cands, total) && c in cands
    ensures c < |g| && g[c].length > 0
  {
  }

  /** Sort with CompareChunkIndex. */
  method SortByCompare(pNames: seq<OneChunkName>, s: seq<nat>, ghost cands: set<nat>, ghost pli: seq<PerLevelInfo>,
                       ghost total: nat)
    returns (r: seq<nat>)
    requires Tree(pNames, pli, total) && Cover(pNames, cands, total) && Ascending(s)
    requires forall k :: 0 <= k < |s| ==> s[k] < |pNames| && s[k] in cands
    ensures r == Sort(pNames, s)
    decreases |s|
  {
    hide Tree, Cover;
    if |s| == 0 {
      return [];
    }
    AscendingTail(s);
    r := SortByCompare(pNames, s[1..], cands, pli, total);
    SortDistinct(pNames, s[1..]);
    forall k | 0 <= k < |r| ensures r[k] in cands && r[k] != s[0] {
      assert r[k] in s[1..];
    }
    r := InsertByCompare(pNames, r, s[0], cands, pli, total);
  }

  lemma AscendingTail(s: seq<nat>)
    requires Ascending(s) && s != []
    ensures Ascending(s[1..]) && (forall k :: 0 <= k < |s[1..]| ==> s[1..][k] > s[0])
  {
    forall k | 0 <= k < |s[1..]| ensures s[1..][k] > s[0] {
      assert s[1..][k] == s[k + 1];
    }
  }

  /** The list holds the selected chunks, in byte order and without gaps. */
  ghost predicate Requests(g: seq<OneChunkName>, pli: seq<PerLevelInfo>, st: seq<bool>, low: nat, total: nat,
                           s: seq<nat>)
    requires low < |pli|
  {
    InOrder(g, s, 0, total) && multiset(s) == multiset(SelectedList(g, pli, st, low, pli[low].Next()))
  }

  /** The chunks that rebuild the block, in byte order. */
  method MissingChunkPolicy(pNames: seq<OneChunkName>, pli: seq<PerLevelInfo>, chunkState: array<bool>, ghost low: nat,
                            ghost total: nat)
    returns (result: seq<nat>)
    requires ResolvedTree(pNames, pli, total, chunkState[..], low)
    ensures Requests(pNames, pli, chunkState[..], low, total, result)
  {
    hide ResolvedTree, Selected, InOrder, Cover, Sort;
    ghost var st := chunkState[..];
    ResolvedIsTree(pNames, pli, total, st, low);
    var list := GetChunkNameList2(pNames, pli, chunkState, low, total);
    SelectedListed(pNames, pli, st, low, pli[low].Next());
    SelectedCover(pNames, pli, total, st, low);
    SelectionTiles(pNames, pli, total, st, low, list);
    SortMultiset(pNames, list);
    forall k | 0 <= k < |list| ensures list[k] < |pNames| && list[k] in SelectedSet(pNames, pli, st, low) {
      assert list[k] in list;
    }
    result := SortByCompare(pNames, list, SelectedSet(pNames, pli, st, low), pli, total);
  }

  /** The lookup leaves the states as the selection needs them. */
  lemma LookupResolves(g: seq<OneChunkName>, pli: seq<PerLevelInfo>, total: nat, known: Sha1 -> bool, st: seq<bool>,
                       low: nat)
    requires Tree(g, pli, total) && low < |pli| && StatesTo(g, known, st, pli[low].Next()) && pli[low].Next() <= |g|
    requires low == |pli| - 1 || Misses(st, pli[low].firstIndex, pli[low].Next()) == 0
    ensures ResolvedTree(g, pli, total, st, low)
  {
    hide Tree, Above, Hit;
    forall l | 0 < l <= low ensures pli[l].Next() <= |g| {
      TreePositive(g, pli, total, l);
    }
    forall l, j | 0 < l <= low && pli[l].Has(j) && ParentHit(g, st, j) ensures st[j] {
      TreeAbove(g, pli, total, l);
      IndexBound(g, pli, total, l, low, j);
      HitParent(g, pli, total, known, st, low, l, j);
    }
    TreePositive(g, pli, total, low);
    MissesZero(g, st, pli[low].firstIndex, pli[low].Next());
  }

  lemma HitParent(g: seq<OneChunkName>, pli: seq<PerLevelInfo>, total: nat, known: Sha1 -> bool, st: seq<bool>,
                  low: nat, l: nat, j: nat)
    requires Tree(g, pli, total) && 0 < l <= low < |pli| && StatesTo(g, known, st, pli[low].Next()) && pli[l].Has(j)
    requires j < pli[low].Next()
    requires ParentHit(g, st, j)
    ensures st[j]
  {
    hide Tree;
    TreeAbove(g, pli, total, l);
    AboveAt(g, pli[l], j);
    assert st[g[j].parentIdx] == Hit(g, known, g[j].parentIdx);
  }

  /** Of the levels resolved, a chunk is asked for when it is a hit or a leaf, and no chunk around it is a hit. */
  ghost predicate Wanted(g: seq<OneChunkName>, pli: seq<PerLevelInfo>, known: Sha1 -> bool, low: nat, i: nat) {
    && low < |pli| && i < |g| && i < pli[low].Next()
    && !(i > 0 && 0 <= g[i].parentIdx < |g| && Hit(g, known, g[i].parentIdx))
    && (Hit(g, known, i) || pli[|pli| - 1].Has(i))
  }

  lemma SelectedWanted(g: seq<OneChunkName>, pli: seq<PerLevelInfo>, total: nat, known: Sha1 -> bool, st: seq<bool>,
                       low: nat, i: nat)
    requires Tree(g, pli, total) && low < |pli| && pli[low].Next() <= |g|
    requires StatesTo(g, known, st, pli[low].Next())
    ensures Selected(g, pli, st, low, i) <==> Wanted(g, pli, known, low, i)
  {
    hide Tree, Hit;
    if i < pli[low].Next() {
      LeafLevel(g, pli, total, i);
      if i > 0 {
        var l := LevelOfChild(g, pli, total, i);
      }
    }
  }

  lemma LeafLevel(g: seq<OneChunkName>, pli: seq<PerLevelInfo>, total: nat, i: nat)
    requires Tree(g, pli, total) && i < |g|
    ensures g[i].level == |pli| - 1 <==> pli[|pli| - 1].Has(i)
  {
    var l := LevelOfIndex(g, pli, total, i, |pli| - 1);
    assert Level(g, pli[l], l, total);
    if pli[|pli| - 1].Has(i) {
      OneLevel(g, pli, total, l, |pli| - 1, i);
    }
  }

  lemma AllHitsAt(g: seq<OneChunkName>, pli: seq<PerLevelInfo>, total: nat, known: Sha1 -> bool, st: seq<bool>,
                  low: nat)
    requires ResolvedTree(g, pli, total, st, low) && pli[low].Next() <= |g|
    requires StatesTo(g, known, st, pli[low].Next())
    ensures low == |pli| - 1 || forall j :: pli[low].Has(j) ==> Hit(g, known, j)
  {
    hide Hit, Tree;
  }

  /**
   A flattened tree at the receiver: recovered, looked up and turned into a request list that covers
   the block byte by byte in order, with hits and misses adding up to the root.  Requested are exactly
   the highest hits and the leaves that have none above them.
   */
  method ResolveTree(list: seq<OneChunkName>, maxLevel: nat, known: Sha1 -> bool, ghost g: seq<OneChunkName>,
                     ghost pli: seq<PerLevelInfo>, ghost total: nat)
    returns (cti: ChunkTreeInfo, requests: seq<nat>)
    requires Tree(g, pli, total) && Flattened(list, g) && |pli| <= maxLevel
    ensures cti.perLevelInfo == pli && Recovered(g, cti.pNames) && cti.bytesHits + cti.bytesMissingChunks == total
    ensures cti.ResolvedLevel(known, cti.lowLevel, total)
    ensures cti.lowLevel < |pli|
    ensures Requests(cti.pNames, pli, cti.chunkState[..], cti.lowLevel, total, requests)
    ensures forall i: nat :: i in requests <==> Selected(cti.pNames, pli, cti.chunkState[..], cti.lowLevel, i)
    ensures pli[cti.lowLevel].Next() <= |cti.pNames|
    ensures cti.lowLevel == |pli| - 1 || forall j :: pli[cti.lowLevel].Has(j) ==> Hit(cti.pNames, known, j)
    ensures forall i: nat :: i in requests <==> Wanted(cti.pNames, pli, known, cti.lowLevel, i)
  {
    hide Tree, Flattened, Recovered, ResolvedTree, InOrder, Missing, Misses, StatesTo, Requests, Selected, Wanted;
    hide Hit;
    var a, levInfo := InitChunkTreeInfo(list, maxLevel, g, pli, total);
    cti := new ChunkTreeInfo(a[..], levInfo);
    cti.ResolveMRCTreeInMemory(known, total);
    TreeRoot(cti.pNames, pli, total);
    LookupResolves(cti.pNames, pli, total, known, cti.chunkState[..], cti.lowLevel);
    requests := MissingChunkPolicy(cti.pNames, cti.perLevelInfo, cti.chunkState, cti.lowLevel, total);
    RequestsExactly(cti.pNames, pli, cti.chunkState[..], cti.lowLevel, total, requests);
    AllHitsAt(cti.pNames, pli, total, known, cti.chunkState[..], cti.lowLevel);
    forall i: nat
      ensures Selected(cti.pNames, pli, cti.chunkState[..], cti.lowLevel, i)
              <==> Wanted(cti.pNames, pli, known, cti.lowLevel, i)
    {
      SelectedWanted(cti.pNames, pli, total, known, cti.chunkState[..], cti.lowLevel, i);
    }
  }

  /** Exactly the highest hits, and the leaves without one above them, are requested. */
  lemma RequestsExactly(g: seq<OneChunkName>, pli: seq<PerLevelInfo>, st: seq<bool>, low: nat, total: nat, s: seq<nat>)
    requires low < |pli| && Requests(g, pli, st, low, total, s)
    ensures forall i: nat :: i in s <==> Selected(g, pli, st, low, i)
  {
    hide InOrder, SelectedList;
    var list := SelectedList(g, pli, st, low, pli[low].Next());
    SelectedListed(g, pli, st, low, pli[low].Next());
    forall i: nat ensures i in s <==> i in list {
      assert i in s <==> i in multiset(s);
      assert i in list <==> i in multiset(list);
    }
  }
}
