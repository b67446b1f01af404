/**
 What a delivered list of names says about the bytes it stands for, and why a table that can
 serve the list rebuilds them.
 */
module Described {
  import opened Bytes
  import opened ChunkNames
  import opened Resolve
  import opened Candidates
  import opened CandidateOrder
  import opened Sender
  import opened Delivery
  import opened ChunkTable
  import opened Receiver
  import opened Transparency

  /** The hash, and the blocks in play, on which it has no collision. */
  datatype Hashing = Hashing(sha: seq<Byte> -> Sha1, play: iset<seq<Byte>>) {
    ghost predicate Injective() {
      forall x, y :: x in play && y in play && sha(x) == sha(y) ==> x == y
    }

    /** The blocks of a table are in play and match their names. */
    ghost predicate Trusts(t: Table) {
      Sound(t, sha) && forall n :: n in t ==> t[n].block in play
    }
  }

  /** Where chunk i of a list starts. */
  function Offset(l: seq<ChunkNameInfo>, i: nat): nat
    requires i <= |l|
  {
    if i == 0 then 0 else Offset(l, i - 1) + l[i - 1].length
  }

  /** Chunk k of the list names its part of the block. */
  ghost predicate NamesPart(e: Hashing, l: seq<ChunkNameInfo>, block: seq<Byte>, k: nat) {
    && k < |l| && l[k].length > 0 && Offset(l, k) + l[k].length <= |block|
    && l[k].name == e.sha(block[Offset(l, k)..Offset(l, k) + l[k].length])
    && block[Offset(l, k)..Offset(l, k) + l[k].length] in e.play
  }

  /** The list names the consecutive chunks of the block. */
  ghost predicate Describes(e: Hashing, l: seq<ChunkNameInfo>, block: seq<Byte>) {
    l != [] && Offset(l, |l|) == |block| && forall k :: 0 <= k < |l| ==> NamesPart(e, l, block, k)
  }

  lemma PartRight(e: Hashing, l: seq<ChunkNameInfo>, block: seq<Byte>, k: nat, t: Table)
    requires NamesPart(e, l, block, k) && e.Injective() && e.Trusts(t) && l[k].name in t
    ensures BlockOf(t, l[k].name) == block[Offset(l, k)..Offset(l, k) + l[k].length]
  {
  }

  /** One more chunk. */
  lemma PartsStep(e: Hashing, l: seq<ChunkNameInfo>, block: seq<Byte>, k: nat, t: Table)
    requires NamesPart(e, l, block, k) && e.Injective() && e.Trusts(t) && l[k].name in t
    requires Blocks(t, l, k) == block[..Offset(l, k)]
    ensures Offset(l, k + 1) <= |block| && Blocks(t, l, k + 1) == block[..Offset(l, k + 1)]
  {
    hide Hashing.Injective, Hashing.Trusts, BlockOf, NamesPart;
    PartFits(e, l, block, k);
    PartRight(e, l, block, k, t);
    Extend(block, Offset(l, k), Offset(l, k + 1));
  }

  lemma PartFits(e: Hashing, l: seq<ChunkNameInfo>, block: seq<Byte>, k: nat)
    requires NamesPart(e, l, block, k)
    ensures k < |l| && Offset(l, k) <= Offset(l, k + 1) == Offset(l, k) + l[k].length <= |block|
  {
  }

  lemma {:induction false} PartsRight(e: Hashing, l: seq<ChunkNameInfo>, block: seq<Byte>, i: nat, t: Table)
    requires i <= |l| && (forall k :: 0 <= k < |l| ==> NamesPart(e, l, block, k))
    requires forall k :: 0 <= k < |l| ==> l[k].name in t
    requires e.Injective() && e.Trusts(t)
    ensures Offset(l, i) <= |block| && Blocks(t, l, i) == block[..Offset(l, i)]
  {
    hide Hashing.Injective, Hashing.Trusts, NamesPart;
    if i > 0 {
      PartsRight(e, l, block, i - 1, t);
      PartsStep(e, l, block, i - 1, t);
    }
  }

  /** A list that can be served is rebuilt to the block it describes. */
  lemma Rebuilt(e: Hashing, l: seq<ChunkNameInfo>, block: seq<Byte>, t: Table)
    requires Describes(e, l, block) && e.Injective() && e.Trusts(t) && Available(t, l)
    ensures Blocks(t, l, |l|) == block
  {
    hide Hashing.Injective, Hashing.Trusts, NamesPart, Available, Blocks;
    AvailableNames(t, l);
    PartsRight(e, l, block, |l|, t);
  }

  // ---------------------------------------------------------------- what the sender delivers

  lemma {:induction false} OffsetsTile(cl: seq<OneCandidate>, total: nat, l: seq<ChunkNameInfo>, i: nat)
    requires ListTiles(cl, 0, total) && |l| == |cl| && i <= |l|
    requires forall k :: 0 <= k < |l| ==> l[k].length == cl[k].length
    ensures Offset(l, i) == EndOf(cl, i)
    decreases i
  {
    if i > 0 {
      OffsetsTile(cl, total, l, i - 1);
      TilesAt(cl, 0, total, i - 1);
    }
  }

  /** The names of a prepared block describe the bytes it consumes. */
  lemma {:induction false} BlockDescribed(e: Hashing, cl: seq<OneCandidate>, psrc: seq<Byte>, h: Hints, total: nat)
    requires BlockList(cl, psrc, h, total) && 0 < total <= |psrc|
    requires forall k :: 0 <= k < |cl| ==> cl[k].End() <= |psrc|
    requires h.sha == e.sha && (forall k :: 0 <= k < |cl| ==> psrc[cl[k].offset..cl[k].End()] in e.play)
    ensures Describes(e, NamesOf(Entries(cl, psrc)), psrc[..total])
  {
    hide ListTiles, Named, NamesPart, NamesOf, Entries, EntryOf;
    var l := NamesOf(Entries(cl, psrc));
    NamesAre(cl, psrc);
    TilesWithin(cl, 0, total);
    TilesNonempty(cl, total);
    TilesAt(cl, 0, total, |cl| - 1);
    OffsetsTile(cl, total, l, |l|);
    forall k | 0 <= k < |l| ensures NamesPart(e, l, psrc[..total], k) {
      OffsetsTile(cl, total, l, k);
      TilesAt(cl, 0, total, k);
      PartNamed(e, cl[k], psrc, h, total, l, k);
    }
  }

  lemma NamesAre(cl: seq<OneCandidate>, psrc: seq<Byte>)
    requires forall k :: 0 <= k < |cl| ==> cl[k].End() <= |psrc|
    ensures var l := NamesOf(Entries(cl, psrc));
            |l| == |cl| && forall k :: 0 <= k < |cl| ==> l[k] == ChunkNameInfo(cl[k].sha1name, cl[k].length)
  {
  }

  lemma PartNamed(e: Hashing, c: OneCandidate, psrc: seq<Byte>, h: Hints, total: nat, l: seq<ChunkNameInfo>, k: nat)
    requires Named(c, psrc, h) && c.length > 0 && c.End() <= total <= |psrc| && h.sha == e.sha
    requires psrc[c.offset..c.End()] in e.play
    requires k < |l| && l[k] == ChunkNameInfo(c.sha1name, c.length) && Offset(l, k) == c.offset
    ensures NamesPart(e, l, psrc[..total], k)
  {
    assert psrc[..total][c.offset..c.End()] == psrc[c.offset..c.End()];
  }
}
