/**
 Top-down resolution of the chunk tree against a table of known names (CheckNameHint and
 ResolveWithHint, waprox/mrc_tree.c).
 */
module Resolve {
  import opened Bytes
  import opened ChunkNames
  import opened Levels
  import opened MrcTree

  /** The hash function and the hint table; SHA-1 itself is not modelled. */
  datatype Hints = Hints(sha: seq<Byte> -> Sha1, known: set<Sha1>)

  function Content(buffer: seq<Byte>, n: OneChunkName): seq<Byte>
    requires n.End() <= |buffer|
  {
    buffer[n.offset..n.End()]
  }

  /** Compute the name of a chunk and look it up. */
  function CheckNameHint(cur: OneChunkName, buffer: seq<Byte>, h: Hints): OneChunkName
    requires cur.pChunk + cur.length <= |buffer|
  {
    var name := h.sha(buffer[cur.pChunk..cur.pChunk + cur.length]);
    cur.(sha1name := name, isSha1Ready := true, isHit := name in h.known)
  }

  /** The treatment of one name, given its parent. */
  function ResolveName(cur: OneChunkName, par: OneChunkName, buffer: seq<Byte>, h: Hints): OneChunkName
    requires cur.pChunk + cur.length <= |buffer|
  {
    if cur.length <= WAPROX_MIN_CHUNK_SIZE then CheckNameHint(cur, buffer, h).(isHit := true)
    else if cur.index == 0 then CheckNameHint(cur, buffer, h)
    else if par.isHit then cur.(isHit := true)
    else if par.length == cur.length then cur.(isHit := par.isHit, sha1name := par.sha1name, isSha1Ready := true)
    else CheckNameHint(cur, buffer, h)
  }

  // ---------------------------------------------------------------- what a hit is

  /** Names are placed inside the buffer and parents come first. */
  ghost predicate Placed(g: seq<OneChunkName>, buffer: seq<Byte>) {
    forall i :: 0 <= i < |g| ==>
      && Blank(g[i]) && g[i].index == i && g[i].End() <= |buffer|
      && (i > 0 ==> 0 <= g[i].parentIdx < i && Inside(g[i], g[g[i].parentIdx]))
  }

  /** A chunk is a hit when it is small or when it, or a chunk it is part of, is known. */
  ghost predicate Hit(g: seq<OneChunkName>, buffer: seq<Byte>, h: Hints, i: nat)
    requires Placed(g, buffer) && i < |g|
    decreases i
  {
    || g[i].length <= WAPROX_MIN_CHUNK_SIZE
    || h.sha(Content(buffer, g[i])) in h.known
    || (i > 0 && Hit(g, buffer, h, g[i].parentIdx))
  }

  /** a is i or one of the chunks that contain it in the tree. */
  ghost predicate Ancestor(g: seq<OneChunkName>, buffer: seq<Byte>, a: nat, i: nat)
    requires Placed(g, buffer) && i < |g|
    decreases i
  {
    a == i || (i > 0 && Ancestor(g, buffer, a, g[i].parentIdx))
  }

  /** The name of chunk i, or of one that contains it, is in the hint table. */
  ghost predicate KnownAround(g: seq<OneChunkName>, buffer: seq<Byte>, h: Hints, i: nat)
    requires Placed(g, buffer) && i < |g|
  {
    exists a: nat :: a < |g| && Ancestor(g, buffer, a, i) && h.sha(Content(buffer, g[a])) in h.known
  }

  /** Skipping the children of a hit loses nothing: a hit is a small or known chunk on the path to the root. */
  lemma {:induction false} HitMeansKnownAncestor(g: seq<OneChunkName>, buffer: seq<Byte>, h: Hints, i: nat)
    requires Placed(g, buffer) && i < |g|
    ensures Hit(g, buffer, h, i)
            <==> g[i].length <= WAPROX_MIN_CHUNK_SIZE || KnownAround(g, buffer, h, i)
    decreases i
  {
    if i > 0 {
      var q := g[i].parentIdx;
      HitMeansKnownAncestor(g, buffer, h, q);
      if h.sha(Content(buffer, g[i])) in h.known {
        assert Ancestor(g, buffer, i, i);
      }
    } else if h.sha(Content(buffer, g[0])) in h.known {
      assert Ancestor(g, buffer, 0, 0);
    }
  }

  /** n is name i of g after resolution. */
  ghost predicate Resolved(g: seq<OneChunkName>, buffer: seq<Byte>, h: Hints, i: nat, n: OneChunkName)
    requires Placed(g, buffer) && i < |g|
  {
    && n == g[i].(sha1name := n.sha1name, isSha1Ready := n.isSha1Ready, isHit := n.isHit)
    && n.isHit == Hit(g, buffer, h, i)
    && (n.isSha1Ready ==> n.sha1name == h.sha(Content(buffer, g[i])))
    && (n.isSha1Ready || (i > 0 && Hit(g, buffer, h, g[i].parentIdx)))
  }

  /** The names before n are resolved, the others are as they were. */
  ghost predicate ResolvedTo(g: seq<OneChunkName>, buffer: seq<Byte>, h: Hints, s: seq<OneChunkName>, n: nat) {
    && Placed(g, buffer) && |s| == |g| && n <= |g|
    && (forall i :: 0 <= i < n ==> Resolved(g, buffer, h, i, s[i]))
    && (forall i :: n <= i < |g| ==> s[i] == g[i])
  }

  /** A name that is not a hit has its hash. */
  lemma MissIsReady(g: seq<OneChunkName>, buffer: seq<Byte>, h: Hints, i: nat, n: OneChunkName)
    requires Placed(g, buffer) && i < |g| && Resolved(g, buffer, h, i, n) && !n.isHit
    ensures n.isSha1Ready && n.sha1name == h.sha(Content(buffer, g[i]))
  {
  }

  /** One name: the shortcuts agree with the definition of a hit. */
  lemma {:induction false} ResolveStep(g: seq<OneChunkName>, buffer: seq<Byte>, h: Hints, i: nat, par: OneChunkName)
    requires Placed(g, buffer) && i < |g|
    requires i > 0 ==> Resolved(g, buffer, h, g[i].parentIdx, par)
    ensures Resolved(g, buffer, h, i, ResolveName(g[i], par, buffer, h))
  {
    var cur := g[i];
    if i > 0 {
      var q := g[i].parentIdx;
      if !par.isHit {
        MissIsReady(g, buffer, h, q, par);
        if par.length == cur.length {
          assert Content(buffer, g[q]) == Content(buffer, cur);
        }
      }
    }
  }

  lemma ResolvedToStep(g: seq<OneChunkName>, buffer: seq<Byte>, h: Hints, s: seq<OneChunkName>, i: nat)
    requires ResolvedTo(g, buffer, h, s, i) && i < |g|
    ensures s[i] == g[i] && (i > 0 ==> 0 <= g[i].parentIdx < i) && s[i].pChunk + s[i].length <= |buffer|
    ensures s[i].index == i
    ensures ResolvedTo(g, buffer, h, s[i := ResolveName(s[i], s[if i == 0 then 0 else g[i].parentIdx], buffer, h)],
                       i + 1)
    ensures ResolveName(s[i], s[if i == 0 then 0 else g[i].parentIdx], buffer, h).isHit == Hit(g, buffer, h, i)
  {
    ResolveStep(g, buffer, h, i, s[if i == 0 then 0 else g[i].parentIdx]);
  }

  lemma ResolvedToFrame(g: seq<OneChunkName>, buffer: seq<Byte>, h: Hints, s: seq<OneChunkName>, n: nat, i: nat)
    requires ResolvedTo(g, buffer, h, s, n) && i < |g|
    ensures |s| == |g| && s[i].length == g[i].length && s[i].offset == g[i].offset && s[i].parentIdx == g[i].parentIdx
    ensures i < n ==> s[i].isHit == Hit(g, buffer, h, i)
  {
  }

  /** Every name from one index to another is a hit. */
  ghost predicate HitsIn(g: seq<OneChunkName>, buffer: seq<Byte>, h: Hints, from: nat, to: nat)
    requires Placed(g, buffer) && from <= to <= |g|
  {
    forall i :: from <= i < to ==> Hit(g, buffer, h, i)
  }

  /** Every name of the level is a hit. */
  ghost predicate AllHit(g: seq<OneChunkName>, buffer: seq<Byte>, h: Hints, info: PerLevelInfo)
    requires Placed(g, buffer) && info.Next() <= |g|
  {
    HitsIn(g, buffer, h, info.firstIndex, info.Next())
  }

  // ---------------------------------------------------------------- the program

  /** Resolve one level; numHits tells whether all of it is hit. */
  method ResolveLevel(a: array<OneChunkName>, buffer: seq<Byte>, h: Hints, info: PerLevelInfo, ghost l: nat,
                      ghost total: nat, ghost g: seq<OneChunkName>)
    returns (numHits: nat)
    requires info.Next() <= |g| && total <= |buffer|
    requires Level(g, info, l, total) && ResolvedTo(g, buffer, h, a[..], info.firstIndex) && Placed(g, buffer)
    modifies a
    ensures ResolvedTo(g, buffer, h, a[..], info.Next())
    ensures numHits == info.numNames <==> AllHit(g, buffer, h, info)
  {
    hide Level, ResolvedTo, Placed, Hit, HitsIn, ResolveName;
    numHits := 0;
    var newIdx, offset := info.firstIndex, 0;
    LevelRange(g, info, l, total);
    HitsStart(g, buffer, h, newIdx);
    for j := 0 to info.numNames
      invariant newIdx == info.firstIndex + j && offset == StartOf(g, info, total, newIdx)
      invariant ResolvedTo(g, buffer, h, a[..], newIdx)
      invariant numHits <= j && (numHits == j <==> HitsIn(g, buffer, h, info.firstIndex, newIdx))
    {
      ghost var s := a[..];
      ResolvedToFrame(g, buffer, h, s, newIdx, newIdx);
      ResolvedToStep(g, buffer, h, s, newIdx);
      LevelStep(g, info, l, total, newIdx);
      HitsStep(g, buffer, h, info.firstIndex, newIdx);
      TileBound(g, info, l, total, newIdx);
      var parent := if newIdx == 0 then 0 else a[newIdx].parentIdx;
      assert offset == a[newIdx].offset && offset + a[newIdx].length <= |buffer|;
      a[newIdx] := ResolveName(a[newIdx], a[parent], buffer, h);
      assert a[..] == s[newIdx := a[newIdx]];
      ResolvedToFrame(g, buffer, h, a[..], newIdx + 1, newIdx);
      offset := offset + a[newIdx].length;
      if a[newIdx].isHit {
        numHits := numHits + 1;
      }
      newIdx := newIdx + 1;
    }
  }

  lemma HitsStart(g: seq<OneChunkName>, buffer: seq<Byte>, h: Hints, from: nat)
    requires Placed(g, buffer) && from <= |g|
    ensures HitsIn(g, buffer, h, from, from)
  {
  }

  lemma HitsStep(g: seq<OneChunkName>, buffer: seq<Byte>, h: Hints, from: nat, to: nat)
    requires Placed(g, buffer) && from <= to < |g|
    ensures HitsIn(g, buffer, h, from, to + 1) <==> HitsIn(g, buffer, h, from, to) && Hit(g, buffer, h, to)
  {
    if HitsIn(g, buffer, h, from, to) && Hit(g, buffer, h, to) {
      forall i | from <= i < to + 1 ensures Hit(g, buffer, h, i) {
      }
    }
  }

  /** Resolve level after level until one is all hits; return the lowest level reached. */
  method ResolveWithHint(a: array<OneChunkName>, buffer: seq<Byte>, h: Hints, pli: seq<PerLevelInfo>, ghost total: nat)
    returns (lowLevel: nat)
    requires pli != [] && Tree(a[..], pli, total) && Placed(a[..], buffer) && total <= |buffer|
    modifies a
    ensures lowLevel < |pli| && pli[lowLevel].Next() <= a.Length
    ensures ResolvedTo(old(a[..]), buffer, h, a[..], pli[lowLevel].Next())
    ensures lowLevel == |pli| - 1 || AllHit(old(a[..]), buffer, h, pli[lowLevel])
    ensures forall l :: 0 <= l < lowLevel ==> pli[l].Next() <= |old(a[..])| && !AllHit(old(a[..]), buffer, h, pli[l])
  {
    hide Tree, Level, ResolvedTo, Placed, AllHit;
    ghost var g := a[..];
    TreeStart(g, buffer, h, pli, total);
    lowLevel := 0;
    var i := 0;
    while i < |pli|
      invariant 0 <= i <= |pli|
      invariant i > 0 ==> lowLevel == i - 1
      invariant i < |pli| ==> ResolvedTo(g, buffer, h, a[..], pli[i].firstIndex)
      invariant i == |pli| ==> ResolvedTo(g, buffer, h, a[..], pli[|pli| - 1].Next()) && pli[|pli| - 1].Next() <= |g|
      invariant forall l :: 0 <= l < i ==> pli[l].Next() <= |g| && !AllHit(g, buffer, h, pli[l])
    {
      lowLevel := i;
      TreeLevel(g, pli, total, i);
      var numHits := ResolveLevel(a, buffer, h, pli[i], i, total, g);
      if numHits == pli[i].numNames {
        return;
      }
      i := i + 1;
    }
  }

  lemma TreeStart(g: seq<OneChunkName>, buffer: seq<Byte>, h: Hints, pli: seq<PerLevelInfo>, total: nat)
    requires pli != [] && Tree(g, pli, total) && Placed(g, buffer)
    ensures ResolvedTo(g, buffer, h, g, pli[0].firstIndex)
  {
  }

  lemma TreeLevel(g: seq<OneChunkName>, pli: seq<PerLevelInfo>, total: nat, i: nat)
    requires Tree(g, pli, total) && i < |pli|
    ensures Level(g, pli[i], i, total) && pli[i].Next() <= |g|
    ensures i + 1 < |pli| ==> pli[i].Next() == pli[i + 1].firstIndex
  {
    if i + 1 < |pli| {
      assert Pair(g, pli[i], pli[i + 1]);
    }
  }
}
