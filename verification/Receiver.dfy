/**
 The receiving side for one block (ProcessNameTreeDelivery2, waprox/waprox.c): the names of a
 delivery are queued, delivered contents and fetched chunks enter the chunk table, and the block
 is rebuilt from the table.
 */
module Receiver {
  import opened Wrappers
  import opened Bytes
  import opened ChunkNames
  import opened Delivery
  import opened ChunkTable

  /** AppendChunkName for every entry. */
  function NamesOf(es: seq<Entry>): (l: seq<ChunkNameInfo>)
    ensures |l| == |es| && forall k :: 0 <= k < |es| ==> l[k] == ChunkNameInfo(es[k].name, es[k].length)
  {
    if es == [] then [] else NamesOf(es[..|es| - 1]) + [ChunkNameInfo(es[|es| - 1].name, es[|es| - 1].length)]
  }

  /** Delivered contents are not empty and match their names. */
  ghost predicate Authentic(es: seq<Entry>, sha: seq<Byte> -> Sha1) {
    forall k :: 0 <= k < |es| && es[k].content.Some? ==>
      es[k].content.value != [] && sha(es[k].content.value) == es[k].name
  }

  ghost function Put(t: Table, n: Sha1, block: seq<Byte>): Table {
    if block == [] then t
    else if n in t then t[n := CacheValue(t[n].block, t[n].refCount + 1)]
    else t[n := CacheValue(block, 1)]
  }

  /** The table once the contents of the first i entries are in it. */
  ghost function PutContents(t: Table, es: seq<Entry>, i: nat): Table
    requires i <= |es|
  {
    if i == 0 then t
    else
      var u := PutContents(t, es, i - 1);
      if es[i - 1].content.Some? then Put(u, es[i - 1].name, es[i - 1].content.value) else u
  }

  /** The table once fetched blocks have arrived. */
  ghost function PutArrivals(t: Table, blocks: seq<seq<Byte>>, i: nat, sha: seq<Byte> -> Sha1): Table
    requires i <= |blocks|
  {
    if i == 0 then t else Put(PutArrivals(t, blocks, i - 1, sha), sha(blocks[i - 1]), blocks[i - 1])
  }

  /** How often a name occurs without content among the first i entries. */
  ghost function Bare(es: seq<Entry>, i: nat, n: Sha1): nat
    requires i <= |es|
  {
    if i == 0 then 0 else Bare(es, i - 1, n) + if es[i - 1].name == n && es[i - 1].content.None? then 1 else 0
  }

  lemma PutCount(t: Table, n: Sha1, block: seq<Byte>, m: Sha1)
    requires block != []
    ensures Count(Put(t, n, block), m) == Count(t, m) + if m == n then 1 else 0
  {
  }

  /** Each delivered content pays for one occurrence of its name. */
  lemma {:induction false} ContentsCount(t: Table, es: seq<Entry>, i: nat, n: Sha1, sha: seq<Byte> -> Sha1)
    requires i <= |es| && Authentic(es, sha)
    ensures Count(PutContents(t, es, i), n) - Need(NamesOf(es), i, n) == Count(t, n) - Bare(es, i, n)
  {
    hide Put, Count, NamesOf;
    if i > 0 {
      ContentsCount(t, es, i - 1, n, sha);
      if es[i - 1].content.Some? {
        PutCount(PutContents(t, es, i - 1), es[i - 1].name, es[i - 1].content.value, n);
      }
    }
  }

  /** A delivery can be rebuilt at once exactly when the table already had the names sent without content. */
  lemma AvailableAfterDelivery(t: Table, es: seq<Entry>, sha: seq<Byte> -> Sha1)
    requires Authentic(es, sha)
    ensures Available(PutContents(t, es, |es|), NamesOf(es)) <==> forall n :: Bare(es, |es|, n) <= Count(t, n)
  {
    hide Count, PutContents, Authentic, NamesOf;
    var u := PutContents(t, es, |es|);
    forall n ensures Need(NamesOf(es), |es|, n) <= Count(u, n) <==> Bare(es, |es|, n) <= Count(t, n) {
      ContentsCount(t, es, |es|, n, sha);
    }
  }

  /** How many of the first i blocks have this name; empty blocks are ignored. */
  ghost function Arrived(blocks: seq<seq<Byte>>, i: nat, n: Sha1, sha: seq<Byte> -> Sha1): nat
    requires i <= |blocks|
  {
    if i == 0 then 0
    else Arrived(blocks, i - 1, n, sha) + if blocks[i - 1] != [] && sha(blocks[i - 1]) == n then 1 else 0
  }

  lemma {:induction false} ArrivalsCount(t: Table, blocks: seq<seq<Byte>>, i: nat, n: Sha1, sha: seq<Byte> -> Sha1)
    requires i <= |blocks|
    ensures Count(PutArrivals(t, blocks, i, sha), n) == Count(t, n) + Arrived(blocks, i, n, sha)
  {
    hide Put, Count;
    if i > 0 {
      ArrivalsCount(t, blocks, i - 1, n, sha);
      if blocks[i - 1] == [] {
        PutNothing(PutArrivals(t, blocks, i - 1, sha), sha(blocks[i - 1]));
      } else {
        PutCount(PutArrivals(t, blocks, i - 1, sha), sha(blocks[i - 1]), blocks[i - 1], n);
      }
    }
  }

  /** With later arrivals: exactly when table and arrivals together have the names sent without content. */
  lemma AvailableAfterArrivals(t: Table, es: seq<Entry>, blocks: seq<seq<Byte>>, sha: seq<Byte> -> Sha1)
    requires Authentic(es, sha)
    ensures Available(PutArrivals(PutContents(t, es, |es|), blocks, |blocks|, sha), NamesOf(es))
            <==> forall n :: Bare(es, |es|, n) <= Count(t, n) + Arrived(blocks, |blocks|, n, sha)
  {
    hide Count, PutContents, PutArrivals, Authentic, NamesOf;
    var u := PutContents(t, es, |es|);
    var v := PutArrivals(u, blocks, |blocks|, sha);
    forall n
      ensures Need(NamesOf(es), |es|, n) <= Count(v, n)
              <==> Bare(es, |es|, n) <= Count(t, n) + Arrived(blocks, |blocks|, n, sha)
    {
      ContentsCount(t, es, |es|, n, sha);
      ArrivalsCount(u, blocks, |blocks|, n, sha);
    }
  }

  /** Queue the names of a delivery and put its contents into the chunk table. */
  method ProcessNameTreeDelivery2(cache: TempCache, buffer: seq<Byte>, ghost sha: seq<Byte> -> Sha1)
    returns (r: Option<(seq<ChunkNameInfo>, nat)>)
    requires Sound(cache.tab, sha)
    requires Parse(buffer).Some? ==> Authentic(Parse(buffer).value.entries, sha)
    modifies cache
    ensures r.Some? <==> Parse(buffer).Some?
    ensures Parse(buffer).None? ==> cache.tab == old(cache.tab)
    ensures Parse(buffer).Some? ==>
              var p := Parse(buffer).value;
              && r == Some((NamesOf(p.entries), p.consumed))
              && cache.tab == PutContents(old(cache.tab), p.entries, |p.entries|) && Sound(cache.tab, sha)
  {
    hide Sound, Parse, NamesOf, Authentic;
    var parsed := ParseMessage(buffer);
    match parsed
    case None => r := None;
    case Some(p) =>
      PutAll(cache, p.entries, sha);
      r := Some((NamesOf(p.entries), p.consumed));
  }

  /** Put the delivered contents into the chunk table. */
  method PutAll(cache: TempCache, es: seq<Entry>, ghost sha: seq<Byte> -> Sha1)
    requires Sound(cache.tab, sha) && Authentic(es, sha)
    modifies cache
    ensures cache.tab == PutContents(old(cache.tab), es, |es|) && Sound(cache.tab, sha)
  {
    hide Sound, Put;
    ghost var t := cache.tab;
    for i := 0 to |es|
      invariant cache.tab == PutContents(t, es, i) && Sound(cache.tab, sha)
    {
      match es[i].content
      case Some(c) =>
        cache.RefPut(es[i].name, c, sha);
        PutIs(PutContents(t, es, i), es[i].name, c, cache.tab);
      case None =>
    }
  }

  lemma PutIs(t: Table, n: Sha1, block: seq<Byte>, u: Table)
    requires block != []
    requires n !in t ==> u == t[n := CacheValue(block, 1)]
    requires n in t ==> u == t[n := CacheValue(t[n].block, t[n].refCount + 1)]
    ensures u == Put(t, n, block)
  {
  }

  /** Chunks fetched from peers or disk enter the table in any order. */
  method Arrive(cache: TempCache, blocks: seq<seq<Byte>>, sha: seq<Byte> -> Sha1)
    requires Sound(cache.tab, sha)
    modifies cache
    ensures cache.tab == PutArrivals(old(cache.tab), blocks, |blocks|, sha) && Sound(cache.tab, sha)
  {
    hide Sound, Put;
    ghost var t := cache.tab;
    for i := 0 to |blocks|
      invariant cache.tab == PutArrivals(t, blocks, i, sha) && Sound(cache.tab, sha)
    {
      cache.RefPut(sha(blocks[i]), blocks[i], sha);
      if blocks[i] == [] {
        PutNothing(PutArrivals(t, blocks, i, sha), sha(blocks[i]));
      } else {
        PutIs(PutArrivals(t, blocks, i, sha), sha(blocks[i]), blocks[i], cache.tab);
      }
    }
  }

  lemma PutNothing(t: Table, n: Sha1)
    ensures Put(t, n, []) == t
  {
  }
}
