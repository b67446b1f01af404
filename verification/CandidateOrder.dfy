/** The ordered candidate list (second half of GetCandidateList2, waprox/mrc_tree.c). */
module CandidateOrder {
  import opened ChunkNames
  import opened Candidates
  import opened CandidateList

  // ---------------------------------------------------------------- sorting by offset

  ghost predicate SortedByOffset(r: seq<OneChunkName>, s: seq<nat>) {
    && (forall k :: 0 <= k < |s| ==> s[k] < |r|)
    && (forall k, m :: 0 <= k < m < |s| ==> r[s[k]].offset <= r[s[m]].offset)
  }

  function Insert(r: seq<OneChunkName>, s: seq<nat>, x: nat): (t: seq<nat>)
    requires x < |r| && (forall k :: 0 <= k < |s| ==> s[k] < |r|)
    ensures forall k :: 0 <= k < |t| ==> t[k] < |r|
  {
    if s == [] then [x]
    else if r[x].offset <= r[s[0]].offset then [x] + s
    else [s[0]] + Insert(r, s[1..], x)
  }

  function Sort(r: seq<OneChunkName>, s: seq<nat>): (t: seq<nat>)
    requires forall k :: 0 <= k < |s| ==> s[k] < |r|
    ensures forall k :: 0 <= k < |t| ==> t[k] < |r|
  {
    if s == [] then [] else Insert(r, Sort(r, s[1..]), s[0])
  }

  lemma {:induction false} InsertMultiset(r: seq<OneChunkName>, s: seq<nat>, x: nat)
    requires x < |r| && (forall k :: 0 <= k < |s| ==> s[k] < |r|)
    ensures multiset(Insert(r, s, x)) == multiset(s) + multiset{x}
  {
    if s != [] {
      assert s == [s[0]] + s[1..];
      InsertMultiset(r, s[1..], x);
    }
  }

  lemma {:induction false} SortMultiset(r: seq<OneChunkName>, s: seq<nat>)
    requires forall k :: 0 <= k < |s| ==> s[k] < |r|
    ensures multiset(Sort(r, s)) == multiset(s)
  {
    if s != [] {
      assert s == [s[0]] + s[1..];
      SortMultiset(r, s[1..]);
      InsertMultiset(r, Sort(r, s[1..]), s[0]);
    }
  }

  /** Inserting keeps a lower bound on the offsets. */
  lemma {:induction false} InsertAbove(r: seq<OneChunkName>, s: seq<nat>, x: nat, low: nat)
    requires x < |r| && (forall k :: 0 <= k < |s| ==> s[k] < |r| && low <= r[s[k]].offset) && low <= r[x].offset
    ensures forall k :: 0 <= k < |Insert(r, s, x)| ==> low <= r[Insert(r, s, x)[k]].offset
  {
    if s != [] {
      InsertAbove(r, s[1..], x, low);
    }
  }

  lemma {:induction false} InsertSorted(r: seq<OneChunkName>, s: seq<nat>, x: nat)
    requires x < |r| && SortedByOffset(r, s)
    ensures SortedByOffset(r, Insert(r, s, x))
  {
    if s != [] && r[x].offset > r[s[0]].offset {
      InsertSorted(r, s[1..], x);
      InsertAbove(r, s[1..], x, r[s[0]].offset);
    }
  }

  lemma {:induction false} SortSorted(r: seq<OneChunkName>, s: seq<nat>)
    requires forall k :: 0 <= k < |s| ==> s[k] < |r|
    ensures SortedByOffset(r, Sort(r, s))
  {
    if s != [] {
      SortSorted(r, s[1..]);
      InsertSorted(r, Sort(r, s[1..]), s[0]);
    }
  }

  // ---------------------------------------------------------------- a sorted cover is a tiling

  /** The listed names tile the bytes from start to total, in this order. */
  ghost predicate InOrder(r: seq<OneChunkName>, s: seq<nat>, start: nat, total: nat) {
    if s == [] then start == total
    else s[0] < |r| && r[s[0]].offset == start && r[s[0]].length > 0 && InOrder(r, s[1..], r[s[0]].End(), total)
  }

  ghost predicate Listed(r: seq<OneChunkName>, s: seq<nat>, p: nat) {
    exists k :: 0 <= k < |s| && s[k] < |r| && Contains(r[s[k]], p)
  }

  /** Every byte from start to total lies in exactly one listed name. */
  ghost predicate CoverList(r: seq<OneChunkName>, s: seq<nat>, start: nat, total: nat) {
    && start <= total
    && (forall k :: 0 <= k < |s| ==>
          s[k] < |r| && r[s[k]].length > 0 && start <= r[s[k]].offset && r[s[k]].End() <= total)
    && (forall p: nat :: start <= p < total ==> Listed(r, s, p))
    && (forall k, m, p: nat {:trigger Contains(r[s[k]], p), Contains(r[s[m]], p)} ::
          0 <= k < |s| && 0 <= m < |s| && Contains(r[s[k]], p) && Contains(r[s[m]], p) ==> k == m)
  }

  /** The first of a sorted cover starts where the cover does. */
  lemma CoverHead(r: seq<OneChunkName>, s: seq<nat>, start: nat, total: nat)
    requires CoverList(r, s, start, total) && SortedByOffset(r, s) && s != []
    ensures r[s[0]].offset == start
  {
    assert Listed(r, s, start);
    var k :| 0 <= k < |s| && Contains(r[s[k]], start);
    assert r[s[0]].offset <= r[s[k]].offset;
  }

  lemma CoverTail(r: seq<OneChunkName>, s: seq<nat>, start: nat, total: nat)
    requires CoverList(r, s, start, total) && s != [] && r[s[0]].offset == start
    ensures CoverList(r, s[1..], r[s[0]].End(), total)
  {
    var head, rest := r[s[0]], s[1..];
    forall k | 0 <= k < |rest|
      ensures rest[k] < |r| && r[rest[k]].length > 0 && head.End() <= r[rest[k]].offset && r[rest[k]].End() <= total
    {
      assert rest[k] == s[k + 1];
      if r[rest[k]].offset < head.End() {
        assert Contains(r[s[0]], r[rest[k]].offset) && Contains(r[s[k + 1]], r[rest[k]].offset);
      }
    }
    forall p: nat | head.End() <= p < total ensures Listed(r, rest, p) {
      assert Listed(r, s, p);
      var k :| 0 <= k < |s| && Contains(r[s[k]], p);
      assert rest[k - 1] == s[k];
    }
    forall k, m, p: nat | 0 <= k < |rest| && 0 <= m < |rest| && Contains(r[rest[k]], p) && Contains(r[rest[m]], p)
      ensures k == m
    {
      assert Contains(r[s[k + 1]], p) && Contains(r[s[m + 1]], p);
    }
  }

  lemma {:induction false} SortedCoverTiles(r: seq<OneChunkName>, s: seq<nat>, start: nat, total: nat)
    requires CoverList(r, s, start, total) && SortedByOffset(r, s)
    ensures InOrder(r, s, start, total)
  {
    assert start < total ==> Listed(r, s, start);
    if s != [] {
      CoverHead(r, s, start, total);
      CoverTail(r, s, start, total);
      SortedCoverTiles(r, s[1..], r[s[0]].End(), total);
    }
  }

  ghost predicate Distinct(s: seq<nat>) {
    forall k, m :: 0 <= k < |s| && 0 <= m < |s| && s[k] == s[m] ==> k == m
  }

  /** A duplicate-free listing of a cover is a cover list. */
  lemma CoverListOf(r: seq<OneChunkName>, cands: set<nat>, s: seq<nat>, total: nat)
    requires Cover(r, cands, total) && (forall i: nat :: i in cands <==> i in s)
    requires Distinct(s)
    ensures CoverList(r, s, 0, total)
  {
    forall k | 0 <= k < |s| ensures s[k] in cands {
      assert s[k] in s;
    }
    forall p: nat | p < total ensures Listed(r, s, p) {
      assert Covered(r, cands, p);
      var c :| c in cands && c < |r| && Contains(r[c], p);
      assert c in s;
      var k :| 0 <= k < |s| && s[k] == c;
    }
  }

  // ---------------------------------------------------------------- the program

  /** The indices of the candidates, in array order. */
  method Gather(a: array<OneChunkName>) returns (s: seq<nat>)
    ensures forall i: nat :: i in CandsOf(a[..]) <==> i in s
    ensures forall k, m :: 0 <= k < m < |s| ==> s[k] < s[m]
    ensures forall k :: 0 <= k < |s| ==> s[k] < a.Length
  {
    s := [];
    for i := 0 to a.Length
      invariant forall j: nat :: j in s <==> j < i && a[j].isCandidate
      invariant forall k, m :: 0 <= k < m < |s| ==> s[k] < s[m]
      invariant forall k :: 0 <= k < |s| ==> s[k] < i
    {
      if a[i].isCandidate {
        s := s + [i];
      }
    }
  }

  function Item(n: OneChunkName): OneCandidate {
    OneCandidate(n.index, n.offset, n.length, n.isHit, n.sha1name)
  }

  function Items(r: seq<OneChunkName>, s: seq<nat>): (cl: seq<OneCandidate>)
    requires forall k :: 0 <= k < |s| ==> s[k] < |r|
    ensures |cl| == |s| && forall k :: 0 <= k < |s| ==> cl[k] == Item(r[s[k]])
  {
    if s == [] then [] else [Item(r[s[0]])] + Items(r, s[1..])
  }

  /** The candidates tile the bytes from start to total, in this order. */
  ghost predicate ListTiles(cl: seq<OneCandidate>, start: nat, total: nat) {
    if cl == [] then start == total
    else cl[0].offset == start && cl[0].length > 0 && ListTiles(cl[1..], cl[0].End(), total)
  }

  lemma {:induction false} ItemsTile(r: seq<OneChunkName>, s: seq<nat>, start: nat, total: nat)
    requires InOrder(r, s, start, total) && (forall k :: 0 <= k < |s| ==> s[k] < |r|)
    ensures ListTiles(Items(r, s), start, total)
  {
    if s != [] {
      ItemsTile(r, s[1..], r[s[0]].End(), total);
      assert Items(r, s)[1..] == Items(r, s[1..]);
    }
  }

  /** A permutation of a strictly increasing list has no duplicates and the same elements. */
  lemma SortDistinct(r: seq<OneChunkName>, s: seq<nat>)
    requires (forall k :: 0 <= k < |s| ==> s[k] < |r|) && (forall k, m :: 0 <= k < m < |s| ==> s[k] < s[m])
    ensures forall i: nat :: i in s <==> i in Sort(r, s)
    ensures Distinct(Sort(r, s))
  {
    var t := Sort(r, s);
    SortMultiset(r, s);
    forall i: nat ensures i in s <==> i in t {
      assert i in multiset(s) <==> i in multiset(t);
    }
    forall k, m | 0 <= k < |t| && 0 <= m < |t| && t[k] == t[m] ensures k == m {
      if k < m {
        Twice(t, k, m);
        Once(s, t[k]);
      } else if m < k {
        Twice(t, m, k);
        Once(s, t[k]);
      }
    }
  }

  lemma Twice(t: seq<nat>, k: nat, m: nat)
    requires k < m < |t| && t[k] == t[m]
    ensures multiset(t)[t[k]] >= 2
  {
    assert t == t[..m] + [t[m]] + t[m + 1..];
    assert t[k] in t[..m];
  }

  lemma {:induction false} Once(s: seq<nat>, x: nat)
    requires forall k, m :: 0 <= k < m < |s| ==> s[k] < s[m]
    ensures multiset(s)[x] <= 1
  {
    if s != [] {
      assert s == [s[0]] + s[1..];
      Once(s[1..], x);
      forall k | 0 <= k < |s[1..]| ensures s[1..][k] > s[0] {
        assert s[1..][k] == s[k + 1];
      }
    }
  }

  /** From the resolved tree to the candidates in byte order. */
  method GetCandidateList2(a: array<OneChunkName>, pli: seq<PerLevelInfo>, lowLevel: nat, ways: nat, ghost total: nat)
    returns (cl: seq<OneCandidate>, ghost picked: seq<nat>)
    requires lowLevel < |pli| && Ready(a[..], pli, total, lowLevel) && (ways == 1 ==> lowLevel == 0)
    modifies a
    ensures pli[lowLevel].Next() <= |old(a[..])|
    ensures Chosen(old(a[..]), a[..], total, pli[lowLevel].firstIndex, pli[lowLevel].Next())
    ensures forall q :: 0 <= q < pli[lowLevel].firstIndex ==> Kept(a[..], q)
    ensures NoneHit(old(a[..]), pli[lowLevel]) ==> picked == [0]
    ensures ListTiles(cl, 0, total)
    ensures forall i: nat :: i in CandsOf(a[..]) <==> i in picked
    ensures |picked| == |cl| && forall k :: 0 <= k < |cl| ==> picked[k] in CandsOf(a[..]) && cl[k] == Item(a[picked[k]])
  {
    hide Ready, Chosen, Cover, ListTiles, CoverList, InOrder, SortedByOffset, Sort, Items, Kept, NoneHit;
    ghost var r := a[..];
    ChooseCandidates(a, pli, lowLevel, ways, total);
    var found := Gather(a);
    picked := Sort(a[..], found);
    SortSorted(a[..], found);
    SortDistinct(a[..], found);
    ChosenCover(r, a[..], total, pli[lowLevel].firstIndex, pli[lowLevel].Next());
    CoverListOf(a[..], CandsOf(a[..]), picked, total);
    SortedCoverTiles(a[..], picked, 0, total);
    ItemsTile(a[..], picked, 0, total);
    NothingHit(r, a[..], pli, total, lowLevel, picked);
    cl := Items(a[..], Sort(a[..], found));
  }

  /** No name of the level is a hit. */
  ghost predicate NoneHit(r: seq<OneChunkName>, info: PerLevelInfo) {
    forall i :: info.Has(i) && i < |r| ==> !r[i].isHit
  }

  lemma Repeats(s: seq<nat>, k: nat, m: nat)
    requires k < m < |s| && s[k] == s[m]
    ensures !Distinct(s)
  {
  }

  /** Then the block goes as one. */
  lemma NothingHit(r: seq<OneChunkName>, s: seq<OneChunkName>, pli: seq<PerLevelInfo>, total: nat, low: nat,
                   picked: seq<nat>)
    requires low < |pli| && Ready(r, pli, total, low) && pli[low].Next() <= |r|
    requires Chosen(r, s, total, pli[low].firstIndex, pli[low].Next())
    requires forall i: nat :: i in CandsOf(s) <==> i in picked
    requires Distinct(picked)
    ensures NoneHit(r, pli[low]) ==> picked == [0]
  {
    hide Ready, Cover, Nested, Exact, OnlyCands, PassedDown, Distinct;
    if NoneHit(r, pli[low]) {
      ReadyPassed(r, pli, total, low);
      NoHitsRoot(r, HitSet(r), CandsOf(s), pli[low].firstIndex, pli[low].Next());
      forall k | 0 <= k < |picked| ensures picked[k] == 0 {
        assert picked[k] in picked;
      }
      assert 0 in CandsOf(s);
      if |picked| > 1 {
        Repeats(picked, 0, 1);
      }
    }
  }

  lemma ChosenCover(r: seq<OneChunkName>, s: seq<OneChunkName>, total: nat, top: nat, bound: nat)
    requires Chosen(r, s, total, top, bound)
    ensures Cover(s, CandsOf(s), total)
  {
    var cands := CandsOf(s);
    forall p: nat | p < total ensures Covered(s, cands, p) {
      assert Covered(r, cands, p);
      var c :| c in cands && c < |r| && Contains(r[c], p);
      assert Contains(s[c], p);
    }
    forall c, d, p: nat | c in cands && d in cands && Contains(s[c], p) && Contains(s[d], p) ensures c == d {
      assert Contains(r[c], p) && Contains(r[d], p);
    }
  }
}
