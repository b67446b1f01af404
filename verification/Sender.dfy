/**
 The sending side for one block (ProcessOneRabinChunking2, waprox/waprox.c): chunk, link,
 resolve and choose candidates.
 */
module Sender {
  import opened Bytes
  import opened Word64
  import opened Boundary
  import opened Chunker
  import opened ChunkNames
  import opened Levels
  import opened PreMrc
  import opened MrcTree
  import opened Resolve
  import opened Candidates
  import opened CandidateList
  import opened CandidateOrder

  // ---------------------------------------------------------------- from the tree to placed names

  lemma NamePlaced(g: seq<OneChunkName>, pli: seq<PerLevelInfo>, total: nat, i: nat)
    requires Tree(g, pli, total) && i < |g|
    ensures g[i].index == i && g[i].End() <= total
    ensures i > 0 ==> 0 <= g[i].parentIdx < i && Inside(g[i], g[g[i].parentIdx])
  {
    var l := LevelOfIndex(g, pli, total, i, |pli| - 1);
    TileBound(g, pli[l], l, total, i);
    if l > 0 {
      TreePair(g, pli, total, l);
    }
  }

  lemma TreePlaced(g: seq<OneChunkName>, pli: seq<PerLevelInfo>, total: nat, buffer: seq<Byte>)
    requires Tree(g, pli, total) && total <= |buffer| && (forall i :: 0 <= i < |g| ==> Blank(g[i]))
    ensures Placed(g, buffer)
  {
    hide Tree;
    forall i | 0 <= i < |g|
      ensures g[i].index == i && g[i].End() <= |buffer|
      ensures i > 0 ==> 0 <= g[i].parentIdx < i && Inside(g[i], g[g[i].parentIdx])
    {
      NamePlaced(g, pli, total, i);
    }
  }

  lemma BlankKept(names: seq<OneChunkName>, g: seq<OneChunkName>)
    requires OnlyParents(names, g) && (forall n :: n in names ==> Blank(n))
    ensures forall i :: 0 <= i < |g| ==> Blank(g[i])
  {
    forall i | 0 <= i < |g| ensures Blank(g[i]) {
      assert names[i] in names;
    }
  }

  // ---------------------------------------------------------------- from resolution to selection

  /** Resolution keeps places and parents. */
  lemma ResolvedSame(g: seq<OneChunkName>, buffer: seq<Byte>, h: Hints, r: seq<OneChunkName>, n: nat)
    requires ResolvedTo(g, buffer, h, r, n)
    ensures SameShape(g, r) && (forall i :: 0 <= i < |g| ==> r[i].parentIdx == g[i].parentIdx && !r[i].isCandidate)
  {
  }

  lemma ParentedKept(g: seq<OneChunkName>, r: seq<OneChunkName>, upper: PerLevelInfo, lower: PerLevelInfo)
    requires Parented(g, upper, lower) && SameShape(g, r)
    requires forall i :: 0 <= i < |g| ==> r[i].parentIdx == g[i].parentIdx
    ensures Parented(r, upper, lower)
  {
  }

  lemma TreeKept(g: seq<OneChunkName>, r: seq<OneChunkName>, pli: seq<PerLevelInfo>, total: nat)
    requires Tree(g, pli, total) && SameShape(g, r) && (forall i :: 0 <= i < |g| ==> r[i].parentIdx == g[i].parentIdx)
    ensures Tree(r, pli, total)
  {
    hide SameShape, Levelled, Parented;
    LevelledSame(g, r, pli, total);
    forall k, l | 0 <= k < l < |pli| && l == k + 1 ensures Parented(r, pli[k], pli[l]) {
      ParentedKept(g, r, pli[k], pli[l]);
    }
  }

  /** A hit chunk's parts are hits. */
  lemma HitsInherited(g: seq<OneChunkName>, buffer: seq<Byte>, h: Hints, r: seq<OneChunkName>, n: nat,
                      info: PerLevelInfo)
    requires ResolvedTo(g, buffer, h, r, n) && info.Next() <= n && info.firstIndex > 0
    ensures Inherited(r, info)
  {
    forall j | info.Has(j) && 0 <= r[j].parentIdx < |r| && r[r[j].parentIdx].isHit ensures r[j].isHit {
      assert Resolved(g, buffer, h, j, r[j]);
      var q := g[j].parentIdx;
      assert Resolved(g, buffer, h, q, r[q]);
    }
  }

  lemma ResolvedReady(g: seq<OneChunkName>, buffer: seq<Byte>, h: Hints, r: seq<OneChunkName>, pli: seq<PerLevelInfo>,
                      total: nat, low: nat)
    requires low < |pli| && Tree(g, pli, total) && ResolvedTo(g, buffer, h, r, pli[low].Next())
    ensures Ready(r, pli, total, low)
  {
    hide ResolvedTo, Tree, Inherited;
    ResolvedSame(g, buffer, h, r, pli[low].Next());
    TreeKept(g, r, pli, total);
    forall l | 1 <= l <= low ensures Inherited(r, pli[l]) {
      TreePair(g, pli, total, l);
      if l < low {
        TreeApart(g, pli, total, l, low);
      }
      HitsInherited(g, buffer, h, r, pli[low].Next(), pli[l]);
    }
    assert CandsOf(r) == {};
  }

  lemma TreeApart(g: seq<OneChunkName>, pli: seq<PerLevelInfo>, total: nat, k: nat, l: nat)
    requires Tree(g, pli, total) && k < l < |pli|
    ensures pli[k].Next() <= pli[l].firstIndex
  {
    LevelsApart(g, pli, total, k, l);
  }

  // ---------------------------------------------------------------- the candidate list of a block

  /** A candidate carries the hash of exactly its own bytes, and is the record of a name. */
  ghost predicate Named(c: OneCandidate, buffer: seq<Byte>, h: Hints) {
    c.End() <= |buffer| && c.sha1name == h.sha(buffer[c.offset..c.End()])
  }

  /** The candidates tile the block in order and are all correctly named. */
  ghost predicate BlockList(cl: seq<OneCandidate>, buffer: seq<Byte>, h: Hints, total: nat) {
    ListTiles(cl, 0, total) && forall k :: 0 <= k < |cl| ==> Named(cl[k], buffer, h)
  }

  /** A chosen candidate had its hash computed, although names under a hit are skipped. */
  lemma {:induction false} ChosenNamed(g: seq<OneChunkName>, buffer: seq<Byte>, h: Hints, r: seq<OneChunkName>,
                                       s: seq<OneChunkName>, total: nat, top: nat, n: nat, c: nat)
    requires ResolvedTo(g, buffer, h, r, n) && Chosen(r, s, total, top, n) && c in CandsOf(s)
    ensures c < |s| == |g| && s[c].isSha1Ready && Named(Item(s[c]), buffer, h)
    ensures s[c].index == c && s[c].isHit == Hit(g, buffer, h, c) && SamePlace(g[c], s[c])
  {
    hide Cover, Nested, Exact;
    assert c < n && Resolved(g, buffer, h, c, r[c]);
    if c > 0 {
      var q := g[c].parentIdx;
      assert Resolved(g, buffer, h, q, r[q]);
    }
  }

  /** A candidate is the chunk of that index in the tree. */
  ghost predicate PlacedAs(c: OneCandidate, names: seq<OneChunkName>) {
    c.index < |names| && names[c.index].offset == c.offset && names[c.index].length == c.length
  }

  lemma PlaceKept(ns: seq<OneChunkName>, g: seq<OneChunkName>, s: seq<OneChunkName>, i: nat)
    requires OnlyParents(ns, g) && i < |s| == |g| && SamePlace(g[i], s[i]) && s[i].index == i
    ensures PlacedAs(Item(s[i]), ns)
  {
  }

  // ---------------------------------------------------------------- what is chosen

  /** The hits among the names before n. */
  ghost function HitsTo(g: seq<OneChunkName>, buffer: seq<Byte>, h: Hints, n: nat): (s: set<nat>)
    requires Placed(g, buffer) && n <= |g|
    ensures forall i: nat :: i in s <==> i < n && Hit(g, buffer, h, i)
  {
    set i: nat | i < n && Hit(g, buffer, h, i)
  }

  /** Resolution went down to the first level of hits, or else to the last one. */
  ghost predicate Lowest(g: seq<OneChunkName>, pli: seq<PerLevelInfo>, buffer: seq<Byte>, h: Hints, low: nat)
    requires Placed(g, buffer)
  {
    && low < |pli| && pli[low].Next() <= |g|
    && (low == |pli| - 1 || AllHit(g, buffer, h, pli[low]))
    && forall l :: 0 <= l < low ==> pli[l].Next() <= |g| && !AllHit(g, buffer, h, pli[l])
  }

  ghost predicate Listing(cl: seq<OneCandidate>, i: nat) {
    exists k :: 0 <= k < |cl| && cl[k].index == i
  }

  /** The candidates are the largest chunks of the tree whose families, down to level low, are of one kind. */
  ghost predicate Selects(g: seq<OneChunkName>, pli: seq<PerLevelInfo>, buffer: seq<Byte>, h: Hints, low: nat,
                          cl: seq<OneCandidate>)
    requires Placed(g, buffer)
  {
    && Lowest(g, pli, buffer, h, low)
    && (forall i: nat :: Listing(cl, i) <==>
          i < pli[low].Next()
          && Largest(g, HitsTo(g, buffer, h, pli[low].Next()), pli[low].firstIndex, i))
    && (forall k :: 0 <= k < |cl| ==> cl[k].index < |g| && cl[k].isHit == Hit(g, buffer, h, cl[k].index))
  }

  lemma HitsOfResolved(g: seq<OneChunkName>, buffer: seq<Byte>, h: Hints, r: seq<OneChunkName>, n: nat)
    requires ResolvedTo(g, buffer, h, r, n)
    ensures HitSet(r) == HitsTo(g, buffer, h, n)
  {
    forall i: nat ensures i in HitSet(r) <==> i in HitsTo(g, buffer, h, n) {
      if i < n {
        assert Resolved(g, buffer, h, i, r[i]);
      } else if i < |g| {
        assert Blank(g[i]) && r[i] == g[i];
      }
    }
  }

  /** Being solid depends on parents only. */
  lemma {:induction false} SolidSame(g: seq<OneChunkName>, r: seq<OneChunkName>, hit: set<nat>, top: nat, q: nat)
    requires |r| == |g| && forall i :: 0 <= i < |g| ==> r[i].parentIdx == g[i].parentIdx
    ensures Solid(g, hit, top, q) <==> Solid(r, hit, top, q)
    decreases if q < |g| then |g| - q else 0
  {
    forall j: nat ensures Child(g, q, j) <==> Child(r, q, j) {
    }
    forall j: nat | q < j && Child(g, q, j) ensures Solid(g, hit, top, j) <==> Solid(r, hit, top, j) {
      SolidSame(g, r, hit, top, j);
    }
    SolidMeans(g, hit, top, q);
    SolidMeans(r, hit, top, q);
  }

  lemma ChosenSelects(g: seq<OneChunkName>, pli: seq<PerLevelInfo>, buffer: seq<Byte>, h: Hints, low: nat,
                      r: seq<OneChunkName>, s: seq<OneChunkName>, total: nat, cl: seq<OneCandidate>, picked: seq<nat>)
    requires Placed(g, buffer) && Lowest(g, pli, buffer, h, low) && ResolvedTo(g, buffer, h, r, pli[low].Next())
    requires Chosen(r, s, total, pli[low].firstIndex, pli[low].Next())
    requires |picked| == |cl| && (forall i: nat :: i in CandsOf(s) <==> i in picked)
    requires forall k :: 0 <= k < |cl| ==> picked[k] in CandsOf(s) && cl[k] == Item(s[picked[k]])
    ensures Selects(g, pli, buffer, h, low, cl)
  {
    hide ResolvedTo, Cover, Nested, Solid, AllHit, Placed, Hit;
    var top, bound := pli[low].firstIndex, pli[low].Next();
    HitsOfResolved(g, buffer, h, r, bound);
    ResolvedSame(g, buffer, h, r, bound);
    forall k | 0 <= k < |cl|
      ensures cl[k].index == picked[k] < |g| && cl[k].isHit == Hit(g, buffer, h, cl[k].index)
    {
      ChosenNamed(g, buffer, h, r, s, total, top, bound, picked[k]);
    }
    forall i: nat ensures Listing(cl, i) <==> i < bound && Largest(g, HitSet(r), top, i) {
      if i < bound {
        SolidSame(g, r, HitSet(r), top, i);
        if i > 0 && g[i].parentIdx >= 0 {
          SolidSame(g, r, HitSet(r), top, g[i].parentIdx);
        }
      }
      if i in picked {
        var k :| 0 <= k < |picked| && picked[k] == i;
        assert cl[k].index == i;
      }
      if Listing(cl, i) {
        var k :| 0 <= k < |cl| && cl[k].index == i;
        assert picked[k] in CandsOf(s);
      }
    }
  }

  lemma LowestIs(g: seq<OneChunkName>, pli: seq<PerLevelInfo>, buffer: seq<Byte>, h: Hints, low: nat)
    requires Placed(g, buffer) && low < |pli| && pli[low].Next() <= |g|
    requires low == |pli| - 1 || AllHit(g, buffer, h, pli[low])
    requires forall l :: 0 <= l < low ==> pli[l].Next() <= |g| && !AllHit(g, buffer, h, pli[l])
    ensures Lowest(g, pli, buffer, h, low)
  {
  }

  /** g is the tree of the names of a block. */
  ghost predicate TreeOf(g: seq<OneChunkName>, names: seq<OneChunkName>, pli: seq<PerLevelInfo>, total: nat,
                         buffer: seq<Byte>) {
    OnlyParents(names, g) && Tree(g, pli, total) && Placed(g, buffer)
  }

  /** Chunk, link, resolve and choose the candidates of one block. */
  method PrepareBlock(rctx: RabinCtx, psrc: seq<Byte>, cfg: Config, h: Hints)
    returns (cl: seq<OneCandidate>, names: array<OneChunkName>, rbSize: nat, ghost bs: seq<RabinBoundary>,
             ghost g: seq<OneChunkName>, ghost low: nat)
    requires rctx.rp.Valid() && cfg.Valid() && psrc != [] && rctx.maxSize > 0
    modifies rctx`finger, rctx.rp`regionPos, rctx.rp.regionBuf
    ensures rctx.rp.Valid() && fresh(names)
    ensures bs == BlockBoundaries(rctx.ParamsOf(), cfg, psrc, rctx.maxSize)
    ensures 0 < rbSize == Last(bs) <= |psrc| && rbSize <= MAX_CHUNK_SIZE
    ensures BlockList(cl, psrc, h, rbSize)
    ensures TreeOf(g, AllNames(bs, cfg).names, AllNames(bs, cfg).pli, rbSize, psrc)
    ensures Placed(g, psrc) && Selects(g, AllNames(bs, cfg).pli, psrc, h, low, cl)
    ensures forall k :: 0 <= k < |cl| ==>
              && cl[k].index < names.Length && cl[k] == Item(names[cl[k].index])
              && PlacedAs(cl[k], AllNames(bs, cfg).names)
  {
    hide Tree, Levelled, Forest, Placed, ResolvedTo, Ready, Chosen, OnlyParents, ListTiles, BlockBoundaries, AllNames;
    hide Named, Lowest, Selects, AllHit;
    var ns, pli;
    ns, rbSize, pli, bs := DoPreMRC(rctx, psrc, cfg);
    names := new OneChunkName[|ns|](i requires 0 <= i < |ns| => ns[i]);
    assert names[..] == ns;
    ForestLevelled(ns, pli, rbSize);
    MakeTree(names, pli, rbSize);
    g := names[..];
    BlankKept(ns, g);
    TreePlaced(g, pli, rbSize, psrc);
    var lowLevel := ResolveWithHint(names, psrc, h, pli, rbSize);
    low := lowLevel;
    LowestIs(g, pli, psrc, h, low);
    ghost var r := names[..];
    ResolvedReady(g, psrc, h, r, pli, rbSize, low);
    ghost var picked;
    cl, picked := GetCandidateList2(names, pli, lowLevel, Pow2(cfg.waysLog), rbSize);
    ChosenSelects(g, pli, psrc, h, low, r, names[..], rbSize, cl, picked);
    forall k | 0 <= k < |cl|
      ensures Named(cl[k], psrc, h) && cl[k].index < names.Length && cl[k] == Item(names[cl[k].index])
      ensures PlacedAs(cl[k], ns)
    {
      ChosenNamed(g, psrc, h, r, names[..], rbSize, pli[low].firstIndex, pli[low].Next(), picked[k]);
      PlaceKept(ns, g, names[..], picked[k]);
    }
  }
}
