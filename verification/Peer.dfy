/** Rendezvous choice of the peer that caches a chunk (waprox/peer.c). */
module Peer {
  datatype ServerWeight = ServerWeight(index: nat, weight: nat)

  // ---------------------------------------------------------------- rearranging a part of an array

  /** t is s with the part from lo to hi rearranged. */
  ghost predicate Rearranged(s: seq<ServerWeight>, t: seq<ServerWeight>, lo: nat, hi: nat) {
    && |s| == |t| && lo <= hi <= |s|
    && s[..lo] == t[..lo] && s[hi..] == t[hi..] && multiset(s[lo..hi]) == multiset(t[lo..hi])
  }

  lemma RearrangedTwice(s: seq<ServerWeight>, t: seq<ServerWeight>, u: seq<ServerWeight>, lo: nat, hi: nat)
    requires Rearranged(s, t, lo, hi) && Rearranged(t, u, lo, hi)
    ensures Rearranged(s, u, lo, hi)
  {
  }

  lemma SplitPart(s: seq<ServerWeight>, lo: nat, a: nat, b: nat, hi: nat)
    requires lo <= a <= b <= hi <= |s|
    ensures multiset(s[lo..hi]) == multiset(s[lo..a]) + multiset(s[a..b]) + multiset(s[b..hi])
  {
    assert s[lo..hi] == s[lo..a] + s[a..b] + s[b..hi];
  }

  /** Rearranging a smaller part rearranges the larger one. */
  lemma Widen(s: seq<ServerWeight>, t: seq<ServerWeight>, lo: nat, a: nat, b: nat, hi: nat)
    requires Rearranged(s, t, a, b) && lo <= a <= b <= hi <= |s|
    ensures Rearranged(s, t, lo, hi)
  {
    SplitPart(s, lo, a, b, hi);
    SplitPart(t, lo, a, b, hi);
    assert s[lo..a] == s[..a][lo..] && t[lo..a] == t[..a][lo..];
    assert s[b..hi] == s[b..][..hi - b] && t[b..hi] == t[b..][..hi - b];
    assert s[..lo] == s[..a][..lo] && t[..lo] == t[..a][..lo];
    assert s[hi..] == s[b..][hi - b..] && t[hi..] == t[b..][hi - b..];
  }

  lemma SwapRearranges(s: seq<ServerWeight>, lo: nat, hi: nat, i: nat, j: nat)
    requires lo <= i <= j < hi <= |s|
    ensures Rearranged(s, Exchanged(s, i, j), lo, hi)
  {
    SwapEnds(s, i, j);
    Widen(s, Exchanged(s, i, j), lo, i, j + 1, hi);
  }

  lemma SwapEnds(s: seq<ServerWeight>, i: nat, j: nat)
    requires i <= j < |s|
    ensures Rearranged(s, Exchanged(s, i, j), i, j + 1)
  {
    var t := Exchanged(s, i, j);
    if i < j {
      var m := s[i + 1..j];
      SwapBag(s[i], m, s[j]);
      SwapSlices(s, i, j);
    } else {
      assert t == s;
    }
  }

  lemma SwapBag(x: ServerWeight, m: seq<ServerWeight>, y: ServerWeight)
    ensures multiset([x] + m + [y]) == multiset([y] + m + [x])
  {
  }

  lemma SwapSlices(s: seq<ServerWeight>, i: nat, j: nat)
    requires i < j < |s|
    ensures var t := Exchanged(s, i, j);
            && s[..i] == t[..i] && s[j + 1..] == t[j + 1..]
            && s[i..j + 1] == [s[i]] + s[i + 1..j] + [s[j]] && t[i..j + 1] == [s[j]] + s[i + 1..j] + [s[i]]
  {
  }

  lemma SwapKeeps(s: seq<ServerWeight>, t: seq<ServerWeight>, lo: nat, hi: nat, i: nat, j: nat)
    requires Rearranged(s, t, lo, hi) && lo <= i <= j < hi <= |t|
    ensures Rearranged(s, Exchanged(t, i, j), lo, hi)
  {
    hide Rearranged, Exchanged;
    SwapRearranges(t, lo, hi, i, j);
    RearrangedTwice(s, t, Exchanged(t, i, j), lo, hi);
  }

  /** What holds outside the part is unchanged. */
  lemma RearrangedOutside(s: seq<ServerWeight>, t: seq<ServerWeight>, lo: nat, hi: nat, k: nat)
    requires Rearranged(s, t, lo, hi) && k < |s| && (k < lo || hi <= k)
    ensures t[k] == s[k]
  {
    if k < lo {
      assert s[k] == s[..lo][k] && t[k] == t[..lo][k];
    } else {
      assert s[k] == s[hi..][k - hi] && t[k] == t[hi..][k - hi];
    }
  }

  /** Every weight of the part comes from the part. */
  lemma RearrangedFrom(s: seq<ServerWeight>, t: seq<ServerWeight>, lo: nat, hi: nat, k: nat) returns (m: nat)
    requires Rearranged(s, t, lo, hi) && lo <= k < hi
    ensures lo <= m < hi && s[m] == t[k]
  {
    assert t[k] == t[lo..hi][k - lo];
    assert t[k] in multiset(t[lo..hi]);
    assert t[k] in s[lo..hi];
    var x :| 0 <= x < |s[lo..hi]| && s[lo..hi][x] == t[k];
    m := lo + x;
  }

  ghost predicate AtLeast(s: seq<ServerWeight>, lo: nat, hi: nat, w: nat) {
    hi <= |s| && forall k :: lo <= k < hi ==> s[k].weight >= w
  }

  ghost predicate AtMost(s: seq<ServerWeight>, lo: nat, hi: nat, w: nat) {
    hi <= |s| && forall k :: lo <= k < hi ==> s[k].weight <= w
  }

  lemma BoundsKept(s: seq<ServerWeight>, t: seq<ServerWeight>, lo: nat, hi: nat, w: nat)
    requires Rearranged(s, t, lo, hi)
    ensures AtLeast(s, lo, hi, w) ==> AtLeast(t, lo, hi, w)
    ensures AtMost(s, lo, hi, w) ==> AtMost(t, lo, hi, w)
  {
    forall k | lo <= k < hi ensures exists m :: lo <= m < hi && s[m] == t[k] {
      var m := RearrangedFrom(s, t, lo, hi, k);
    }
  }

  ghost predicate Descending(s: seq<ServerWeight>, lo: nat, hi: nat) {
    hi <= |s| && forall k, m :: lo <= k < m < hi ==> s[k].weight >= s[m].weight
  }

  /** The element before the part bounds it; the scan from the right relies on that. */
  ghost predicate Guarded(s: seq<ServerWeight>, lo: nat, hi: nat) {
    lo <= hi <= |s| && (lo > 0 ==> AtMost(s, lo, hi, s[lo - 1].weight))
  }

  // ---------------------------------------------------------------- quickSort

  method Swap(a: array<ServerWeight>, left: nat, right: nat)
    requires left < a.Length && right < a.Length
    modifies a
    ensures a[..] == Exchanged(old(a[..]), left, right)
  {
    var temp := a[left];
    a[left] := a[right];
    a[right] := temp;
  }

  /** Up to p only weights no smaller than w, from j up to right only weights no larger; the pivot is last. */
  ghost predicate Partitioned(s: seq<ServerWeight>, left: nat, p: int, j: int, right: nat, w: nat) {
    && left <= right < |s| && left - 1 <= p < j <= right
    && (forall k :: left <= k <= p ==> s[k].weight >= w)
    && (forall k :: j <= k < right ==> s[k].weight <= w)
    && s[right].weight == w && (left > 0 ==> s[left - 1].weight >= w)
  }

  ghost predicate StopsUp(s: seq<ServerWeight>, i: int, p: nat, w: nat) {
    p < |s| && s[p].weight <= w && forall k :: 0 <= k < p && i < k ==> s[k].weight > w
  }

  ghost predicate StopsDown(s: seq<ServerWeight>, j: nat, from: nat, w: nat) {
    from <= |s| && (j == 0 || (j < |s| && s[j].weight >= w)) && forall k :: j < k < from ==> s[k].weight < w
  }

  /** The scan from the left stops at the pivot at the latest. */
  method ScanUp(a: array<ServerWeight>, i: int, right: nat, w: nat) returns (p: nat)
    requires -1 <= i < right < a.Length && a[right].weight == w
    ensures i < p <= right && StopsUp(a[..], i, p, w)
  {
    p := i + 1;
    while a[p].weight > w
      invariant i < p <= right && forall k :: i < k < p ==> a[k].weight > w
      decreases right - p
    {
      p := p + 1;
    }
  }

  /** The scan from the right stops at the front of the array or at the element before the part. */
  method ScanDown(a: array<ServerWeight>, left: nat, from: nat, w: nat) returns (j: nat)
    requires left <= from <= a.Length && (left > 0 ==> a[left - 1].weight >= w)
    ensures left - 1 <= j <= from && (from > 0 ==> j < from) && StopsDown(a[..], j, from, w)
  {
    j := from;
    while j > 0
      invariant left <= j <= from && forall k :: j <= k < from ==> a[k].weight < w
    {
      j := j - 1;
      if a[j].weight >= w {
        break;
      }
    }
  }

  /** Index i splits the part: no smaller weights before it, no larger ones after it. */
  ghost predicate Split(s: seq<ServerWeight>, left: nat, i: nat, right: nat) {
    left <= i <= right < |s| && AtLeast(s, left, i, s[i].weight) && AtMost(s, i + 1, right + 1, s[i].weight)
  }

  /** s with two elements exchanged. */
  ghost function Exchanged(s: seq<ServerWeight>, i: nat, j: nat): seq<ServerWeight>
    requires i < |s| && j < |s|
  {
    s[i := s[j]][j := s[i]]
  }

  /** Both scans: either a pair to exchange, or the place for the pivot. */
  method ScanBoth(a: array<ServerWeight>, left: nat, p0: int, j0: int, right: nat, w: nat) returns (p: nat, j: nat)
    requires Partitioned(a[..], left, p0, j0, right, w)
    ensures left - 1 <= p0 < p <= right < a.Length && left <= p
    ensures p < j ==> j < right && Partitioned(Exchanged(a[..], p, j), left, p, j, right, w)
    ensures p >= j ==> Split(Exchanged(a[..], p, right), left, p, right)
  {
    hide Partitioned, AtLeast, AtMost, StopsUp, StopsDown;
    PartFacts(a[..], left, p0, j0, right, w);
    p := ScanUp(a, p0, right, w);
    j := ScanDown(a, left, j0, w);
    if p >= j {
      PartEnd(a[..], left, p0, j0, right, w, p, j);
    } else {
      PartStep(a[..], left, p0, j0, right, w, p, j);
    }
  }

  /** One split around the last element. */
  method Partition(a: array<ServerWeight>, left: nat, right: nat) returns (i: nat)
    requires left < right < a.Length && Guarded(a[..], left, right + 1)
    modifies a
    ensures Split(a[..], left, i, right) && Rearranged(old(a[..]), a[..], left, right + 1)
  {
    hide Rearranged, Partitioned, Split, Guarded, Exchanged;
    var w := a[right].weight;
    ghost var s := a[..];
    var p: int, j: int := left - 1, right;
    PartStart(s, left, right, w);
    while true
      invariant p < right && Rearranged(s, a[..], left, right + 1) && Partitioned(a[..], left, p, j, right, w)
      decreases right - p
    {
      p, j := ScanBoth(a, left, p, j, right, w);
      if p >= j {
        break;
      }
      SwapKeeps(s, a[..], left, right + 1, p, j);
      Swap(a, p, j);
    }
    SwapKeeps(s, a[..], left, right + 1, p, right);
    Swap(a, p, right);
    i := p;
  }

  /**
   Sort a part of the array in place, largest weight first.  The scan from the right is not bounded by
   left; the element before the part stops it.
   */
  method QuickSort(a: array<ServerWeight>, left: int, right: int)
    requires 0 <= left <= right + 1 <= a.Length && Guarded(a[..], left, right + 1)
    modifies a
    ensures Descending(a[..], left, right + 1) && Rearranged(old(a[..]), a[..], left, right + 1)
    decreases right + 1 - left
  {
    hide Rearranged, Split, Guarded, Descending;
    ghost var s := a[..];
    SortTrivial(s, left, right + 1);
    if right > left {
      var i := Partition(a, left, right);
      ghost var t := a[..];
      SplitRange(t, left, i, right);
      GuardKept(s, t, left, right + 1);
      SplitGuards(t, left, i, right);
      var before: int := i;
      QuickSort(a, left, before - 1);
      ghost var u := a[..];
      SplitKeptLeft(t, u, left, i, right);
      QuickSort(a, i + 1, right);
      SortJoin(s, t, u, a[..], left, i, right);
    }
  }

  lemma SortJoin(s: seq<ServerWeight>, t: seq<ServerWeight>, u: seq<ServerWeight>, v: seq<ServerWeight>, left: nat,
                 i: nat, right: nat)
    requires left <= i <= right < |s| == |u| == |t| && Rearranged(s, t, left, right + 1)
    requires Rearranged(t, u, left, i) && Descending(u, left, i) && Split(u, left, i, right)
    requires Rearranged(u, v, i + 1, right + 1) && Descending(v, i + 1, right + 1)
    ensures Rearranged(s, v, left, right + 1) && Descending(v, left, right + 1)
  {
    hide Rearranged, Split, Descending;
    SplitKeptRight(u, v, left, i, right);
    Widen(t, u, left, left, i, right + 1);
    Widen(u, v, left, i + 1, right + 1, right + 1);
    RearrangedTwice(s, t, u, left, right + 1);
    RearrangedTwice(s, u, v, left, right + 1);
  }

  lemma SortTrivial(s: seq<ServerWeight>, lo: nat, hi: nat)
    requires lo <= hi <= |s|
    ensures Rearranged(s, s, lo, hi) && (hi <= lo + 1 ==> Descending(s, lo, hi))
  {
  }

  lemma SplitRange(s: seq<ServerWeight>, left: nat, i: nat, right: nat)
    requires Split(s, left, i, right)
    ensures left <= i <= right < |s|
  {
  }

  lemma SplitGuards(s: seq<ServerWeight>, left: nat, i: nat, right: nat)
    requires Split(s, left, i, right) && Guarded(s, left, right + 1)
    ensures Guarded(s, left, i)
  {
  }

  lemma SplitKeptLeft(s: seq<ServerWeight>, t: seq<ServerWeight>, left: nat, i: nat, right: nat)
    requires Split(s, left, i, right) && Rearranged(s, t, left, i)
    ensures Split(t, left, i, right) && Guarded(t, i + 1, right + 1)
  {
    BoundsKept(s, t, left, i, s[i].weight);
    RearrangedOutside(s, t, left, i, i);
    forall k | i + 1 <= k < right + 1 ensures t[k] == s[k] {
      RearrangedOutside(s, t, left, i, k);
    }
  }

  lemma SplitKeptRight(s: seq<ServerWeight>, t: seq<ServerWeight>, left: nat, i: nat, right: nat)
    requires Split(s, left, i, right) && Rearranged(s, t, i + 1, right + 1)
    requires Descending(s, left, i) && Descending(t, i + 1, right + 1)
    ensures Descending(t, left, right + 1)
  {
    hide Rearranged, AtLeast, AtMost, Descending;
    BoundsKept(s, t, i + 1, right + 1, s[i].weight);
    forall k | left <= k < i + 1 ensures t[k] == s[k] {
      RearrangedOutside(s, t, i + 1, right + 1, k);
    }
    RearrangedLength(s, t, i + 1, right + 1);
    JoinDescending(s, t, left, i, right);
  }

  lemma RearrangedLength(s: seq<ServerWeight>, t: seq<ServerWeight>, lo: nat, hi: nat)
    requires Rearranged(s, t, lo, hi)
    ensures |s| == |t|
  {
  }

  lemma JoinDescending(s: seq<ServerWeight>, t: seq<ServerWeight>, left: nat, i: nat, right: nat)
    requires left <= i <= right < |s| == |t| && (forall k :: left <= k < i + 1 ==> t[k] == s[k])
    requires Descending(s, left, i) && AtLeast(s, left, i, s[i].weight)
    requires Descending(t, i + 1, right + 1) && AtMost(t, i + 1, right + 1, s[i].weight)
    ensures Descending(t, left, right + 1)
  {
    forall k, m | left <= k < m < right + 1 ensures t[k].weight >= t[m].weight {
      assert k < i ==> t[k].weight >= s[i].weight;
      assert m > i ==> t[m].weight <= s[i].weight;
    }
  }

  lemma PartStart(s: seq<ServerWeight>, left: nat, right: nat, w: nat)
    requires left < right < |s| && Guarded(s, left, right + 1) && s[right].weight == w
    ensures Partitioned(s, left, left - 1, right, right, w) && Rearranged(s, s, left, right + 1)
  {
  }

  lemma PartFacts(s: seq<ServerWeight>, left: nat, p: int, j: int, right: nat, w: nat)
    requires Partitioned(s, left, p, j, right, w)
    ensures left <= right < |s| && left - 1 <= p < j <= right && s[right].weight == w
    ensures left > 0 ==> s[left - 1].weight >= w
  {
  }

  lemma PartStep(s: seq<ServerWeight>, left: nat, p: int, j: nat, right: nat, w: nat, p': nat, j': nat)
    requires Partitioned(s, left, p, j, right, w) && p < p' < j' < j && StopsUp(s, p, p', w) && StopsDown(s, j', j, w)
    ensures Partitioned(Exchanged(s, p', j'), left, p', j', right, w)
  {
  }

  lemma PartEnd(s: seq<ServerWeight>, left: nat, p: int, j: nat, right: nat, w: nat, p': nat, j': nat)
    requires Partitioned(s, left, p, j, right, w) && p < p' <= right && j' <= p' && j' <= j && StopsUp(s, p, p', w)
    requires StopsDown(s, j', j, w)
    ensures Split(Exchanged(s, p', right), left, p', right)
  {
  }

  lemma GuardKept(s: seq<ServerWeight>, t: seq<ServerWeight>, lo: nat, hi: nat)
    requires Rearranged(s, t, lo, hi) && Guarded(s, lo, hi)
    ensures Guarded(t, lo, hi)
  {
    if lo > 0 {
      BoundsKept(s, t, lo, hi, s[lo - 1].weight);
      RearrangedOutside(s, t, lo, hi, lo - 1);
    }
  }
}
