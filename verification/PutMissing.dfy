/**
 Storing the missing chunks of a block (ActualPutMissingChunks, waprox/mrc_tree.c): the block is cut
 again, resolved against the hints of what is on disk, and every missing chunk is put under its name.
 */
module PutMissing {
  import opened Bytes
  import opened Chunker
  import opened Boundary
  import opened ChunkNames
  import opened PreMrc
  import opened MrcTree
  import opened Resolve
  import opened Candidates
  import opened Sender

  const MAX_NAMES: nat := 1024 * 1024

  /** The newest names, at most as many as the table holds. */
  function Newest(names: seq<Sha1>): (r: seq<Sha1>)
    ensures |r| <= MAX_NAMES
  {
    if |names| <= MAX_NAMES then names else names[|names| - MAX_NAMES..]
  }

  /** The table of names put to disk, oldest first; a full table forgets the oldest. */
  class DiskHints {
    var fifo: seq<Sha1>

    constructor ()
      ensures fifo == []
    {
      fifo := [];
    }

    function GetDiskHint(name: Sha1): bool
      reads this
    {
      name in fifo
    }

    method PutDiskHint(name: Sha1)
      requires !GetDiskHint(name) && |fifo| <= MAX_NAMES
      modifies this
      ensures fifo == Newest(old(fifo) + [name])
      ensures fifo == (if |old(fifo)| < MAX_NAMES then old(fifo) else old(fifo)[1..]) + [name]
    {
      if |fifo| >= MAX_NAMES {
        fifo := fifo[1..];
      }
      fifo := fifo + [name];
    }
  }

  /** A request to store a chunk under a name (DistributePutRequest). */
  datatype Put = Put(name: Sha1, chunk: seq<Byte>)

  function NamesPut(puts: seq<Put>): (r: seq<Sha1>)
    ensures |r| == |puts| && forall k :: 0 <= k < |r| ==> r[k] == puts[k].name
  {
    seq(|puts|, k requires 0 <= k < |puts| => puts[k].name)
  }

  lemma NamesPutMore(puts: seq<Put>, p: Put)
    ensures NamesPut(puts + [p]) == NamesPut(puts) + [p.name]
  {
  }

  // ---------------------------------------------------------------- what the loop puts

  /** The put of chunk i: the hash of exactly its bytes, and these bytes. */
  ghost function PutFor(g: seq<OneChunkName>, buffer: seq<Byte>, h: Hints, i: nat): Put
    requires Placed(g, buffer) && i < |g|
  {
    Put(h.sha(Content(buffer, g[i])), Content(buffer, g[i]))
  }

  /** A chunk that has to be put: no part of the tree above it is known, and it is not small. */
  ghost predicate Missing(g: seq<OneChunkName>, buffer: seq<Byte>, h: Hints, i: int)
    requires Placed(g, buffer)
  {
    0 <= i < |g| && !Hit(g, buffer, h, i)
  }

  /** Each put is a missing chunk before n under the hash of exactly its bytes. */
  ghost predicate OnlyMissing(g: seq<OneChunkName>, buffer: seq<Byte>, h: Hints, n: nat, puts: seq<Put>)
    requires Placed(g, buffer)
  {
    forall k :: 0 <= k < |puts| ==> PutOf(g, buffer, h, n, puts[k])
  }

  ghost predicate PutOf(g: seq<OneChunkName>, buffer: seq<Byte>, h: Hints, n: nat, p: Put)
    requires Placed(g, buffer)
  {
    exists i: nat :: i < n && Missing(g, buffer, h, i) && p == PutFor(g, buffer, h, i)
  }

  /** Each missing chunk before n has been put. */
  ghost predicate AllMissing(g: seq<OneChunkName>, buffer: seq<Byte>, h: Hints, n: nat, puts: seq<Put>)
    requires Placed(g, buffer)
  {
    forall i :: 0 <= i < n && Missing(g, buffer, h, i) ==> PutFor(g, buffer, h, i).name in NamesPut(puts)
  }

  /** The hints are the newest of the old ones and the names put; a name is put again only if it was forgotten. */
  ghost predicate Remembered(was: seq<Sha1>, puts: seq<Put>, fifo: seq<Sha1>) {
    && fifo == Newest(was + NamesPut(puts))
    && forall k :: 0 <= k < |puts| ==> puts[k].name !in Newest(was + NamesPut(puts[..k]))
  }

  /** All of it, for the names before n. */
  ghost predicate PutSoFar(g: seq<OneChunkName>, buffer: seq<Byte>, h: Hints, n: nat, was: seq<Sha1>, puts: seq<Put>,
                           fifo: seq<Sha1>) {
    && Placed(g, buffer) && n <= |g| && h.known == (set x | x in was) && |was| <= MAX_NAMES
    && OnlyMissing(g, buffer, h, n, puts) && AllMissing(g, buffer, h, n, puts) && Remembered(was, puts, fifo)
  }

  lemma PutStart(g: seq<OneChunkName>, buffer: seq<Byte>, h: Hints, was: seq<Sha1>)
    requires Placed(g, buffer) && h.known == (set x | x in was) && |was| <= MAX_NAMES
    ensures PutSoFar(g, buffer, h, 0, was, [], was)
  {
    assert was + NamesPut([]) == was;
  }

  lemma PutKnown(g: seq<OneChunkName>, buffer: seq<Byte>, h: Hints, i: nat, was: seq<Sha1>, puts: seq<Put>,
                 fifo: seq<Sha1>)
    requires PutSoFar(g, buffer, h, i, was, puts, fifo) && i < |g|
    requires Missing(g, buffer, h, i) ==> PutFor(g, buffer, h, i).name in fifo
    ensures PutSoFar(g, buffer, h, i + 1, was, puts, fifo)
  {
    hide Hit, Remembered, Placed, PutFor;
    forall k | 0 <= k < |puts| ensures PutOf(g, buffer, h, i + 1, puts[k]) {
      assert PutOf(g, buffer, h, i, puts[k]);
    }
    if Missing(g, buffer, h, i) {
      MissingUnknown(g, buffer, h, i);
      OldOrPut(was, puts, fifo, PutFor(g, buffer, h, i).name);
    }
  }

  lemma MissingUnknown(g: seq<OneChunkName>, buffer: seq<Byte>, h: Hints, i: nat)
    requires Placed(g, buffer) && Missing(g, buffer, h, i)
    ensures PutFor(g, buffer, h, i).name !in h.known
  {
  }

  lemma OldOrPut(was: seq<Sha1>, puts: seq<Put>, fifo: seq<Sha1>, name: Sha1)
    requires Remembered(was, puts, fifo) && name in fifo
    ensures name in was || name in NamesPut(puts)
  {
    assert name in was + NamesPut(puts);
  }

  lemma PutNew(g: seq<OneChunkName>, buffer: seq<Byte>, h: Hints, i: nat, was: seq<Sha1>, puts: seq<Put>,
               fifo: seq<Sha1>)
    requires PutSoFar(g, buffer, h, i, was, puts, fifo) && Missing(g, buffer, h, i)
    requires PutFor(g, buffer, h, i).name !in fifo
    ensures var p := PutFor(g, buffer, h, i);
            PutSoFar(g, buffer, h, i + 1, was, puts + [p], Newest(fifo + [p.name]))
  {
    hide Hit, Placed, Newest, PutFor;
    var p := PutFor(g, buffer, h, i);
    forall k | 0 <= k < |puts + [p]| ensures PutOf(g, buffer, h, i + 1, (puts + [p])[k]) {
      assert k < |puts| ==> PutOf(g, buffer, h, i, puts[k]);
    }
    RememberedMore(was, puts, fifo, p);
    NamesPutMore(puts, p);
  }

  lemma RememberedMore(was: seq<Sha1>, puts: seq<Put>, fifo: seq<Sha1>, p: Put)
    requires Remembered(was, puts, fifo) && p.name !in fifo
    ensures Remembered(was, puts + [p], Newest(fifo + [p.name]))
  {
    hide Newest;
    NamesPutMore(puts, p);
    NewestNewest(was + NamesPut(puts), p.name);
    assert was + NamesPut(puts) + [p.name] == was + (NamesPut(puts) + [p.name]);
    forall k | 0 <= k < |puts + [p]| ensures (puts + [p])[k].name !in Newest(was + NamesPut((puts + [p])[..k])) {
      assert (puts + [p])[..k] == if k < |puts| then puts[..k] else puts;
    }
  }

  lemma NewestNewest(names: seq<Sha1>, name: Sha1)
    ensures Newest(Newest(names) + [name]) == Newest(names + [name])
  {
  }

  /** Unless a single block fills the table, no name is put twice. */
  lemma PutOnce(was: seq<Sha1>, puts: seq<Put>, fifo: seq<Sha1>)
    requires Remembered(was, puts, fifo) && |puts| <= MAX_NAMES
    ensures forall j, k :: 0 <= j < k < |puts| ==> puts[j].name != puts[k].name
  {
    hide NamesPut, Newest;
    forall j, k | 0 <= j < k < |puts| ensures puts[j].name != puts[k].name {
      NewPutKept(was, puts, j, k);
    }
  }

  lemma NewPutKept(was: seq<Sha1>, puts: seq<Put>, j: nat, k: nat)
    requires j < k < |puts| <= MAX_NAMES
    ensures puts[j].name in Newest(was + NamesPut(puts[..k]))
  {
    var all := was + NamesPut(puts[..k]);
    assert all[|was| + j] == puts[j].name;
    assert Newest(all)[|was| + j - (|all| - |Newest(all)|)] == puts[j].name;
  }

  // ---------------------------------------------------------------- what it means

  /**
   After the put, every byte of the block lies in a chunk that is small or belongs to a chunk whose
   name was known before or has just been put.
   */
  lemma EverythingStored(g: seq<OneChunkName>, buffer: seq<Byte>, h: Hints, pli: seq<PerLevelInfo>, total: nat,
                         low: nat, was: seq<Sha1>, puts: seq<Put>, fifo: seq<Sha1>, p: nat)
    returns (i: nat)
    requires Tree(g, pli, total) && low < |pli| && pli[low].Next() <= |g| && p < total
    requires PutSoFar(g, buffer, h, pli[low].Next(), was, puts, fifo)
    ensures pli[low].Has(i) && g[i].offset <= p < g[i].End()
    ensures || g[i].length <= WAPROX_MIN_CHUNK_SIZE
            || exists a: nat :: a < |g| && Ancestor(g, buffer, a, i)
                                && (|| PutFor(g, buffer, h, a).name in was
                                    || PutFor(g, buffer, h, a).name in NamesPut(puts))
  {
    hide Hit, Remembered, Placed, OnlyMissing, Tree, Level, Ancestor;
    TreeLevel(g, pli, total, low);
    LevelRange(g, pli[low], low, total);
    LevelEnd(g, pli[low], low, total);
    i := TileFind(g, pli[low], low, total, p, pli[low].Next() - 1);
    HitMeansKnownAncestor(g, buffer, h, i);
    SelfAncestor(g, buffer, i);
    assert Missing(g, buffer, h, i) ==> PutFor(g, buffer, h, i).name in NamesPut(puts);
  }

  lemma SelfAncestor(g: seq<OneChunkName>, buffer: seq<Byte>, i: nat)
    requires Placed(g, buffer) && i < |g|
    ensures Ancestor(g, buffer, i, i)
  {
  }

  lemma LevelEnd(g: seq<OneChunkName>, info: PerLevelInfo, l: nat, total: nat)
    requires Level(g, info, l, total)
    ensures g[info.Next() - 1].End() == total
  {
  }

  /** The put of a chunk carries the name that the sender sends for the chunk of that index, and its bytes. */
  lemma PutAsSent(c: OneCandidate, psrc: seq<Byte>, hs: Hints, names: seq<OneChunkName>, g: seq<OneChunkName>,
                  buffer: seq<Byte>, h: Hints)
    requires Named(c, psrc, hs) && PlacedAs(c, names) && OnlyParents(names, g) && Placed(g, buffer)
    requires |buffer| <= |psrc| && buffer == psrc[..|buffer|] && hs.sha == h.sha
    ensures PutFor(g, buffer, h, c.index) == Put(c.sha1name, psrc[c.offset..c.End()])
  {
    PlacedAt(g, buffer, c.index);
    assert g[c.index] == names[c.index].(parentIdx := g[c.index].parentIdx);
    assert Content(buffer, g[c.index]) == psrc[c.offset..c.End()];
  }

  /** A block as DoPreMRC cuts it off: cut again, it stays whole. */
  ghost predicate Whole(p: Params, cfg: Config, maxSize: nat, buffer: seq<Byte>)
    requires p.Valid() && cfg.Valid()
  {
    buffer != [] && Last(BlockBoundaries(p, cfg, buffer, maxSize)) == |buffer|
  }

  /** Every emitted block is whole, and its names are those of the sender. */
  lemma EmittedWhole(p: Params, cfg: Config, psrc: seq<Byte>, maxSize: nat)
    requires p.Valid() && cfg.Valid() && psrc != [] && maxSize > 0
    ensures var bs := BlockBoundaries(p, cfg, psrc, maxSize);
            && 0 < Last(bs) <= |psrc| && Whole(p, cfg, maxSize, psrc[..Last(bs)])
            && AllNames(BlockBoundaries(p, cfg, psrc[..Last(bs)], maxSize), cfg) == AllNames(bs, cfg)
  {
    RechunkNames(p, cfg, psrc, maxSize);
    BlockNonempty(p, cfg, psrc, maxSize);
  }

  lemma BlockNonempty(p: Params, cfg: Config, psrc: seq<Byte>, maxSize: nat)
    requires p.Valid() && cfg.Valid() && psrc != [] && maxSize > 0
    ensures Last(BlockBoundaries(p, cfg, psrc, maxSize)) > 0
  {
    var len := if |psrc| <= MAX_CHUNK_SIZE then |psrc| else MAX_CHUNK_SIZE;
    BoundariesAreScan(p, cfg.ScanMasks(), psrc[..len], if len <= maxSize then len else maxSize);
    var bs := BlockBoundaries(p, cfg, psrc, maxSize);
    assert 0 < Offsets(bs)[|bs| - 1];
  }

  // ---------------------------------------------------------------- the program

  lemma LevelAfter(g: seq<OneChunkName>, pli: seq<PerLevelInfo>, total: nat, low: nat, i: nat)
    requires Tree(g, pli, total) && low < |pli| && i < |g|
    ensures g[i].level > low <==> i >= pli[low].Next()
  {
    hide Level;
    hide Parented, Pair;
    var l := LevelOfIndex(g, pli, total, i, |pli| - 1);
    TreeLevel(g, pli, total, l);
    LevelNumber(g, pli[l], l, total, i);
    if l < low {
      TreeApart(g, pli, total, l, low);
    } else if low < l {
      TreeApart(g, pli, total, low, l);
    }
  }

  lemma LevelNumber(g: seq<OneChunkName>, info: PerLevelInfo, l: nat, total: nat, i: nat)
    requires Level(g, info, l, total) && info.Has(i)
    ensures g[i].level == l
  {
  }

  lemma ResolvedLevel(g: seq<OneChunkName>, buffer: seq<Byte>, h: Hints, s: seq<OneChunkName>, n: nat, i: nat)
    requires ResolvedTo(g, buffer, h, s, n) && i < |g|
    ensures |s| == |g| && Placed(g, buffer) && s[i].level == g[i].level
    ensures i < n ==> Resolved(g, buffer, h, i, s[i])
  {
    hide Hit, Placed;
  }

  /** A resolved name: its hit flag, its place, and its hash when it is missing. */
  lemma ResolvedFacts(g: seq<OneChunkName>, buffer: seq<Byte>, h: Hints, i: nat, n: OneChunkName)
    requires Placed(g, buffer) && i < |g| && Resolved(g, buffer, h, i, n)
    ensures !n.isHit <==> Missing(g, buffer, h, i)
    ensures !n.isHit ==>
              && n.isSha1Ready && n.pChunk + n.length <= |buffer|
              && Put(n.sha1name, buffer[n.pChunk..n.pChunk + n.length]) == PutFor(g, buffer, h, i)
  {
    PlacedAt(g, buffer, i);
    hide Hit, Placed;
    if !n.isHit {
      MissIsReady(g, buffer, h, i, n);
    }
  }

  lemma PlacedAt(g: seq<OneChunkName>, buffer: seq<Byte>, i: nat)
    requires Placed(g, buffer) && i < |g|
    ensures g[i].End() <= |buffer| && g[i].pChunk == g[i].offset
  {
  }

  /** Put the missing chunks among the names of level at most lowLevel. */
  method PutMisses(names: array<OneChunkName>, buffer: seq<Byte>, hints: DiskHints, lowLevel: nat, ghost h: Hints,
                   ghost g: seq<OneChunkName>, ghost pli: seq<PerLevelInfo>, ghost total: nat)
    returns (puts: seq<Put>)
    requires Tree(g, pli, total) && lowLevel < |pli| && pli[lowLevel].Next() <= |g|
    requires ResolvedTo(g, buffer, h, names[..], pli[lowLevel].Next())
    requires h.known == (set x | x in hints.fifo) && |hints.fifo| <= MAX_NAMES
    modifies hints
    ensures PutSoFar(g, buffer, h, pli[lowLevel].Next(), old(hints.fifo), puts, hints.fifo)
  {
    hide Tree, ResolvedTo, PutSoFar, Missing, PutFor, Resolved, Placed;
    ghost var was, n := hints.fifo, pli[lowLevel].Next();
    puts := [];
    ResolvedToPlaced(g, buffer, h, names[..], n);
    PutStart(g, buffer, h, was);
    var i := 0;
    while i < names.Length
      invariant 0 <= i <= n && names.Length == |g| && PutSoFar(g, buffer, h, i, was, puts, hints.fifo)
    {
      LevelAfter(g, pli, total, lowLevel, i);
      ResolvedLevel(g, buffer, h, names[..], n, i);
      if names[i].level > lowLevel {
        break;
      }
      ResolvedFacts(g, buffer, h, i, names[i]);
      if !names[i].isHit {
        assert names[i].isSha1Ready;
        if !hints.GetDiskHint(names[i].sha1name) {
          PutNew(g, buffer, h, i, was, puts, hints.fifo);
          PutBound(g, buffer, h, i, was, puts, hints.fifo);
          puts := puts + [Put(names[i].sha1name, buffer[names[i].pChunk..names[i].pChunk + names[i].length])];
          hints.PutDiskHint(names[i].sha1name);
        } else {
          PutKnown(g, buffer, h, i, was, puts, hints.fifo);
        }
      } else {
        PutKnown(g, buffer, h, i, was, puts, hints.fifo);
      }
      i := i + 1;
    }
  }

  lemma PutBound(g: seq<OneChunkName>, buffer: seq<Byte>, h: Hints, n: nat, was: seq<Sha1>, puts: seq<Put>,
                 fifo: seq<Sha1>)
    requires PutSoFar(g, buffer, h, n, was, puts, fifo)
    ensures |fifo| <= MAX_NAMES
  {
  }

  lemma ResolvedToPlaced(g: seq<OneChunkName>, buffer: seq<Byte>, h: Hints, s: seq<OneChunkName>, n: nat)
    requires ResolvedTo(g, buffer, h, s, n)
    ensures Placed(g, buffer) && |s| == |g|
  {
  }

  /**
   Cut, link and resolve an emitted block once more, and put what is missing.  The names of the block
   have their parents in g; low is the lowest level resolved.
   */
  method ActualPutMissingChunks(rctx: RabinCtx, buffer: seq<Byte>, cfg: Config, hints: DiskHints,
                                sha: seq<Byte> -> Sha1)
    returns (puts: seq<Put>, ghost g: seq<OneChunkName>, ghost pli: seq<PerLevelInfo>, ghost low: nat)
    requires rctx.rp.Valid() && cfg.Valid() && rctx.maxSize > 0 && |hints.fifo| <= MAX_NAMES
    requires Whole(rctx.ParamsOf(), cfg, rctx.maxSize, buffer)
    modifies rctx`finger, rctx.rp`regionPos, rctx.rp.regionBuf, hints
    ensures rctx.rp.Valid()
    ensures OnlyParents(AllNames(BlockBoundaries(rctx.ParamsOf(), cfg, buffer, rctx.maxSize), cfg).names, g)
    ensures Tree(g, pli, |buffer|) && low < |pli| && pli[low].Next() <= |g| && Placed(g, buffer)
    ensures var h := Hints(sha, set x | x in old(hints.fifo));
            && (low == |pli| - 1 || AllHit(g, buffer, h, pli[low]))
            && PutSoFar(g, buffer, h, pli[low].Next(), old(hints.fifo), puts, hints.fifo)
  {
    hide Tree, Levelled, Forest, Placed, ResolvedTo, OnlyParents, BlockBoundaries, AllNames, PutSoFar, AllHit;
    var h := Hints(sha, set x | x in hints.fifo);
    ghost var was := hints.fifo;
    var ns, rbSize, levels;
    ghost var bs;
    ns, rbSize, levels, bs := DoPreMRC(rctx, buffer, cfg);
    assert rbSize == |buffer|;
    pli := levels;
    var names := new OneChunkName[|ns|](i requires 0 <= i < |ns| => ns[i]);
    assert names[..] == ns;
    ForestLevelled(ns, pli, rbSize);
    MakeTree(names, levels, rbSize);
    g := names[..];
    BlankKept(ns, g);
    TreePlaced(g, pli, rbSize, buffer);
    var lowLevel := ResolveWithHint(names, buffer, h, levels, rbSize);
    low := lowLevel;
    puts := PutMisses(names, buffer, hints, lowLevel, h, g, pli, rbSize);
  }
}
