/**
 End-to-end transparency of one block: whatever the hints, the receiver rebuilds exactly the
 bytes the sender consumed.
 */
module Transparency {
  import opened Wrappers
  import opened Bytes
  import opened Boundary
  import opened Chunker
  import opened ChunkNames
  import opened PreMrc
  import opened MrcTree
  import opened Resolve
  import opened Candidates
  import opened CandidateOrder
  import opened Sender
  import opened Delivery
  import opened ChunkTable
  import opened Receiver

  // ---------------------------------------------------------------- candidate lists

  lemma {:induction false} TilesWithin(cl: seq<OneCandidate>, start: nat, total: nat)
    requires ListTiles(cl, start, total)
    ensures start + |cl| <= total
    ensures forall k :: 0 <= k < |cl| ==> 0 < cl[k].length && start <= cl[k].offset && cl[k].End() <= total
    decreases |cl|
  {
    if cl != [] {
      TilesWithin(cl[1..], cl[0].End(), total);
      assert forall k :: 1 <= k < |cl| ==> cl[k] == cl[1..][k - 1];
    }
  }

  /** The chunk part of a message is at most a fixed cost per chunk and the block itself. */
  lemma {:induction false} EncodedLength(cl: seq<OneCandidate>, psrc: seq<Byte>, start: nat, total: nat)
    requires ListTiles(cl, start, total) && total <= |psrc| && total < WORD
    requires forall k :: 0 <= k < |cl| ==> cl[k].End() <= |psrc|
    requires forall k :: 0 <= k < |cl| ==> Sendable(EntryOf(cl[k], psrc))
    ensures |EncodeAll(Entries(cl, psrc))| <= ONE_CHUNK * |cl| + (total - start)
    decreases |cl|
  {
    hide EncodeEntry, EntryOf;
    TilesWithin(cl, start, total);
    if cl != [] {
      EncodedLength(cl[1..], psrc, cl[0].End(), total);
      var es := Entries(cl, psrc);
      EntryLength(cl[0], psrc);
      assert es[1..] == Entries(cl[1..], psrc);
    }
  }

  lemma EntryLength(c: OneCandidate, psrc: seq<Byte>)
    requires c.End() <= |psrc| && c.length < WORD
    ensures Sendable(EntryOf(c, psrc)) && |EncodeEntry(EntryOf(c, psrc))| <= ONE_CHUNK + c.length
  {
  }

  /** Every delivery of a block fits the 32-bit length of the header. */
  lemma BlockFits(cl: seq<OneCandidate>, psrc: seq<Byte>, total: nat)
    requires ListTiles(cl, 0, total) && total <= |psrc| && total <= MAX_CHUNK_SIZE
    ensures forall k :: 0 <= k < |cl| ==> cl[k].End() <= |psrc| && cl[k].length < WORD
    ensures Fits(Entries(cl, psrc))
  {
    hide ListTiles, EntryOf, Sendable;
    TilesWithin(cl, 0, total);
    forall k | 0 <= k < |cl| ensures Sendable(EntryOf(cl[k], psrc)) {
      EntryLength(cl[k], psrc);
    }
    EncodedLength(cl, psrc, 0, total);
  }

  lemma BlockAuthentic(cl: seq<OneCandidate>, psrc: seq<Byte>, h: Hints, total: nat)
    requires BlockList(cl, psrc, h, total) && (forall k :: 0 <= k < |cl| ==> cl[k].End() <= |psrc|)
    ensures Authentic(Entries(cl, psrc), h.sha)
  {
    hide ListTiles;
    TilesWithin(cl, 0, total);
    var es := Entries(cl, psrc);
    forall k | 0 <= k < |es| && es[k].content.Some?
      ensures es[k].content.value != [] && h.sha(es[k].content.value) == es[k].name
    {
      assert Named(cl[k], psrc, h);
    }
  }

  // ---------------------------------------------------------------- rebuilding

  /** SHA-1 tells the blocks of the table from the chunks of the message. */
  ghost predicate NoCollision(t: Table, cl: seq<OneCandidate>, psrc: seq<Byte>, sha: seq<Byte> -> Sha1) {
    forall n, k ::
      n in t && 0 <= k < |cl| && cl[k].End() <= |psrc| && sha(t[n].block) == sha(psrc[cl[k].offset..cl[k].End()])
      ==> t[n].block == psrc[cl[k].offset..cl[k].End()]
  }

  /** A block the table has for a candidate is the candidate's own bytes. */
  lemma RightBlock(t: Table, cl: seq<OneCandidate>, psrc: seq<Byte>, h: Hints, k: nat)
    requires k < |cl| && Named(cl[k], psrc, h) && Sound(t, h.sha) && NoCollision(t, cl, psrc, h.sha)
    requires cl[k].sha1name in t
    ensures BlockOf(t, cl[k].sha1name) == psrc[cl[k].offset..cl[k].End()]
  {
  }

  lemma {:induction false} TilesAt(cl: seq<OneCandidate>, start: nat, total: nat, i: nat)
    requires ListTiles(cl, start, total) && i < |cl|
    ensures i == 0 ==> cl[i].offset == start
    ensures i > 0 ==> cl[i].offset == cl[i - 1].End()
    ensures i == |cl| - 1 ==> cl[i].End() == total
    decreases |cl|
  {
    if i > 0 {
      TilesAt(cl[1..], cl[0].End(), total, i - 1);
    }
  }

  ghost function EndOf(cl: seq<OneCandidate>, i: nat): nat
    requires i <= |cl|
  {
    if i == 0 then 0 else cl[i - 1].End()
  }

  lemma {:induction false} BlocksPrefix(t: Table, cl: seq<OneCandidate>, psrc: seq<Byte>, h: Hints, total: nat,
                                        l: seq<ChunkNameInfo>, i: nat)
    requires BlockList(cl, psrc, h, total) && Sound(t, h.sha) && NoCollision(t, cl, psrc, h.sha)
    requires |l| == |cl| && i <= |l|
    requires forall k :: 0 <= k < |l| ==> l[k].name == cl[k].sha1name && cl[k].sha1name in t
    ensures EndOf(cl, i) <= |psrc| && Blocks(t, l, i) == psrc[..EndOf(cl, i)]
    decreases i
  {
    hide ListTiles, Sound, NoCollision, BlockOf, Named;
    if i > 0 {
      BlocksPrefix(t, cl, psrc, h, total, l, i - 1);
      TilesAt(cl, 0, total, i - 1);
      NamedWithin(cl[i - 1], psrc, h);
      RightBlock(t, cl, psrc, h, i - 1);
      Extend(psrc, cl[i - 1].offset, cl[i - 1].End());
    }
  }

  lemma NamedWithin(c: OneCandidate, psrc: seq<Byte>, h: Hints)
    requires Named(c, psrc, h)
    ensures c.End() <= |psrc|
  {
  }

  lemma Extend(s: seq<Byte>, i: nat, j: nat)
    requires i <= j <= |s|
    ensures s[..i] + s[i..j] == s[..j]
  {
  }

  /** Every name of an available list is in the table. */
  lemma AvailableNames(t: Table, l: seq<ChunkNameInfo>)
    requires Available(t, l)
    ensures forall k :: 0 <= k < |l| ==> l[k].name in t
  {
    forall k | 0 <= k < |l| ensures l[k].name in t {
      ReleaseHas(t, l, k);
    }
  }

  /**
   Transparency: for every block, every hint table and every sound receiver table that can serve
   the delivered names, the rebuilt bytes are the sender's bytes, and every length announced is
   the length of the block used.
   */
  lemma Transparent(t: Table, cl: seq<OneCandidate>, psrc: seq<Byte>, h: Hints, total: nat)
    requires BlockList(cl, psrc, h, total) && 0 < total <= |psrc|
    requires forall k :: 0 <= k < |cl| ==> cl[k].End() <= |psrc|
    requires Sound(t, h.sha) && NoCollision(t, cl, psrc, h.sha)
    requires Available(t, NamesOf(Entries(cl, psrc)))
    ensures var l := NamesOf(Entries(cl, psrc));
            && l != [] && Blocks(t, l, |l|) == psrc[..total]
            && forall k :: 0 <= k < |l| ==> |BlockOf(t, l[k].name)| == l[k].length
  {
    hide ListTiles, Sound, NoCollision, BlockOf, Named, Available, Blocks, NamesOf, Entries;
    var l := NamesOf(Entries(cl, psrc));
    AvailableNames(t, l);
    NamesOfEntries(cl, psrc);
    BlocksPrefix(t, cl, psrc, h, total, l, |l|);
    TilesNonempty(cl, total);
    TilesAt(cl, 0, total, |cl| - 1);
    forall k | 0 <= k < |l| ensures |BlockOf(t, l[k].name)| == l[k].length {
      RightBlock(t, cl, psrc, h, k);
    }
  }

  lemma NamesOfEntries(cl: seq<OneCandidate>, psrc: seq<Byte>)
    requires forall k :: 0 <= k < |cl| ==> cl[k].End() <= |psrc|
    ensures var l := NamesOf(Entries(cl, psrc));
            |l| == |cl| && forall k :: 0 <= k < |l| ==> l[k].name == cl[k].sha1name && l[k].length == cl[k].length
  {
  }

  lemma TilesNonempty(cl: seq<OneCandidate>, total: nat)
    requires ListTiles(cl, 0, total) && total > 0
    ensures cl != []
  {
  }

  // ---------------------------------------------------------------- one block, end to end

  /**
   What a delivery has to say, chunk by chunk: the name, the length, and the bytes themselves unless the
   chunk is large and its name, or that of a chunk around it in the tree g, is in the hint table.
   */
  ghost predicate Delivers(es: seq<Entry>, cl: seq<OneCandidate>, psrc: seq<Byte>, h: Hints, g: seq<OneChunkName>) {
    && Placed(g, psrc) && |es| == |cl|
    && forall k :: 0 <= k < |es| ==> DeliversChunk(es[k], cl[k], psrc, h, g)
  }

  ghost predicate DeliversChunk(e: Entry, c: OneCandidate, psrc: seq<Byte>, h: Hints, g: seq<OneChunkName>)
    requires Placed(g, psrc)
  {
    && c.index < |g| && c.offset + c.length <= |psrc|
    && var part := psrc[c.offset..c.offset + c.length];
    && e.name == h.sha(part) && e.length == c.length
    && if c.length > WAPROX_MIN_CHUNK_SIZE && KnownAround(g, psrc, h, c.index) then e.content == None
       else e.content == Some(part)
  }

  lemma EntriesDeliver(cl: seq<OneCandidate>, psrc: seq<Byte>, h: Hints, total: nat, g: seq<OneChunkName>,
                       names: seq<OneChunkName>)
    requires Placed(g, psrc) && OnlyParents(names, g) && BlockList(cl, psrc, h, total)
    requires forall k :: 0 <= k < |cl| ==> cl[k].End() <= |psrc| && PlacedAs(cl[k], names)
    requires forall k :: 0 <= k < |cl| ==> cl[k].index < |g| && cl[k].isHit == Hit(g, psrc, h, cl[k].index)
    ensures Delivers(Entries(cl, psrc), cl, psrc, h, g)
  {
    hide ListTiles, Placed, KnownAround, Hit;
    forall k | 0 <= k < |cl| ensures DeliversChunk(EntryOf(cl[k], psrc), cl[k], psrc, h, g) {
      assert Named(cl[k], psrc, h) && PlacedAs(cl[k], names);
      HitMeansKnownAncestor(g, psrc, h, cl[k].index);
      assert g[cl[k].index].length == cl[k].length;
    }
  }

  /** Without hints every chunk is sent with its bytes. */
  lemma {:induction false} NothingBare(es: seq<Entry>, cl: seq<OneCandidate>, psrc: seq<Byte>, h: Hints,
                                       g: seq<OneChunkName>, i: nat, n: Sha1)
    requires Delivers(es, cl, psrc, h, g) && h.known == {} && i <= |es|
    ensures Bare(es, i, n) == 0
  {
    if i > 0 {
      NothingBare(es, cl, psrc, h, g, i - 1, n);
      assert DeliversChunk(es[i - 1], cl[i - 1], psrc, h, g);
    }
  }

  /** The sender's half: what goes on the wire for one block, and how much of psrc it stands for. */
  method SendBlock(rctx: RabinCtx, psrc: seq<Byte>, cfg: Config, h: Hints, conn: ConnId)
    returns (msg: seq<Byte>, rbSize: nat, ghost cl: seq<OneCandidate>, ghost g: seq<OneChunkName>, ghost low: nat)
    requires rctx.rp.Valid() && cfg.Valid() && psrc != [] && rctx.maxSize > 0
    modifies rctx`finger, rctx.rp`regionPos, rctx.rp.regionBuf
    ensures rctx.rp.Valid()
    ensures rbSize == Last(BlockBoundaries(rctx.ParamsOf(), cfg, psrc, rctx.maxSize))
    ensures 0 < rbSize <= |psrc| && rbSize <= MAX_CHUNK_SIZE && BlockList(cl, psrc, h, rbSize)
    ensures (forall k :: 0 <= k < |cl| ==> cl[k].End() <= |psrc|) && Fits(Entries(cl, psrc))
    ensures msg == Message(conn, Entries(cl, psrc))
    ensures var p := Parse(msg);
            && p.Some? && p.value.conn == conn && p.value.consumed == |msg|
            && Delivers(p.value.entries, cl, psrc, h, g)
    ensures var b := AllNames(BlockBoundaries(rctx.ParamsOf(), cfg, psrc, rctx.maxSize), cfg);
            TreeOf(g, b.names, b.pli, rbSize, psrc) && Placed(g, psrc) && Selects(g, b.pli, psrc, h, low, cl)
  {
    hide ListTiles, Named, Message, EncodeAll, BlockBoundaries, Fits, Last, Delivers, AllNames, Tree, Parse, Placed;
    hide Lowest;
    var list, names, size;
    ghost var bs;
    list, names, size, bs, g, low := PrepareBlock(rctx, psrc, cfg, h);
    rbSize, cl := size, list;
    BlockFits(list, psrc, rbSize);
    EntriesDeliver(list, psrc, h, rbSize, g, AllNames(bs, cfg).names);
    MessageRoundTrip(conn, Entries(list, psrc), []);
    assert Message(conn, Entries(list, psrc)) + [] == Message(conn, Entries(list, psrc));
    var len, items := GetCandidateMessageLength(list, psrc, rbSize);
    msg := BuildWANameTreeDelivery3(conn, psrc, names, list, items, len, rbSize);
  }

  /**
   One block through the whole chain, with arbitrary later bytes behind the message and arbitrary
   chunks arriving before reconstruction.  The block is rebuilt exactly when the table can serve
   it, and then it is the sender's bytes.
   */
  method TransferBlock(rctx: RabinCtx, psrc: seq<Byte>, cfg: Config, h: Hints, conn: ConnId, rest: seq<Byte>,
                       cache: TempCache, arrivals: seq<seq<Byte>>)
    returns (ok: bool, out: seq<Byte>, rbSize: nat, ghost es: seq<Entry>, ghost t: Table, ghost cl: seq<OneCandidate>)
    requires rctx.rp.Valid() && cfg.Valid() && psrc != [] && rctx.maxSize > 0
    requires Sound(cache.tab, h.sha)
    modifies rctx`finger, rctx.rp`regionPos, rctx.rp.regionBuf, cache
    ensures BlockList(cl, psrc, h, rbSize) && 0 < rbSize <= |psrc|
    ensures rbSize == Last(BlockBoundaries(rctx.ParamsOf(), cfg, psrc, rctx.maxSize))
    ensures (forall k :: 0 <= k < |cl| ==> cl[k].End() <= |psrc|) && es == Entries(cl, psrc)
    ensures t == PutArrivals(PutContents(old(cache.tab), es, |es|), arrivals, |arrivals|, h.sha)
    ensures ok <==> Available(t, NamesOf(es))
    ensures ok && NoCollision(t, cl, psrc, h.sha) ==> out == psrc[..rbSize]
    ensures cache.tab == if ok then Released(t, NamesOf(es), |es|) else t
    ensures Sound(cache.tab, h.sha)
    ensures ok <==> forall n :: Bare(es, |es|, n) <= ChunkTable.Count(old(cache.tab), n)
                                                    + Arrived(arrivals, |arrivals|, n, h.sha)
    ensures h.known == {} ==> ok
  {
    hide ListTiles, Named, Message, EncodeAll, BlockBoundaries, Fits, Last, Parse, Sound, Available, Released;
    hide NoCollision, Authentic, NamesOf;
    hide PutContents, PutArrivals, Blocks, Entries, Delivers, TreeOf, Selects, Placed, Message;
    var msg;
    ghost var g, low;
    msg, rbSize, cl, g, low := SendBlock(rctx, psrc, cfg, h, conn);
    es := Entries(cl, psrc);
    BlockAuthentic(cl, psrc, h, rbSize);
    MessageRoundTrip(conn, es, rest);
    MessageRoundTrip(conn, es, []);
    assert msg + [] == msg;
    var r := ProcessNameTreeDelivery2(cache, msg + rest, h.sha);
    var l := r.value.0;
    Arrive(cache, arrivals, h.sha);
    t := cache.tab;
    SoundNonempty(t, h.sha);
    ok, out := cache.ReconstructOneChunkTree(l);
    NamesLength(es);
    if Available(t, l) && NoCollision(t, cl, psrc, h.sha) {
      Transparent(t, cl, psrc, h, rbSize);
    }
    BlockListNonempty(cl, psrc, h, rbSize, es);
    ReleasedSound(t, l, h.sha);
    AvailableAfterArrivals(old(cache.tab), es, arrivals, h.sha);
    if h.known == {} {
      forall n ensures Bare(es, |es|, n) == 0 && ChunkTable.Count(old(cache.tab), n) >= 0 {
        NothingBare(es, cl, psrc, h, g, |es|, n);
        CountNatural(old(cache.tab), h.sha, n);
      }
    }
  }

  lemma CountNatural(t: Table, sha: seq<Byte> -> Sha1, n: Sha1)
    requires Sound(t, sha)
    ensures ChunkTable.Count(t, n) >= 0
  {
  }

  lemma SoundNonempty(t: Table, sha: seq<Byte> -> Sha1)
    requires Sound(t, sha)
    ensures Counted(t) && forall n :: n in t ==> t[n].block != []
  {
  }

  lemma NamesLength(es: seq<Entry>)
    ensures |NamesOf(es)| == |es|
  {
  }

  lemma BlockListNonempty(cl: seq<OneCandidate>, psrc: seq<Byte>, h: Hints, total: nat, es: seq<Entry>)
    requires BlockList(cl, psrc, h, total) && total > 0 && (forall k :: 0 <= k < |cl| ==> cl[k].End() <= |psrc|)
    requires es == Entries(cl, psrc)
    ensures es != []
  {
  }
}
