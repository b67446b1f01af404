/** The in-memory chunk cache with first-in first-out eviction (CheckCache and PutMemory, waprox/chunkcache.c). */
module MemCache {
  import opened Bytes
  import opened ChunkNames

  datatype CacheKey = CacheKey(sha1name: Sha1, blockLength: nat)

  /** The sizes of the key and value records, and the limit. */
  datatype Sizes = Sizes(key: nat, value: nat, max: nat)

  // ---------------------------------------------------------------- what is held

  /** The bytes really held for the first n keys. */
  ghost function Held(z: Sizes, fifo: seq<CacheKey>, n: nat): nat
    requires n <= |fifo|
  {
    if n == 0 then 0 else Held(z, fifo, n - 1) + z.key + z.value + fifo[n - 1].blockLength
  }

  ghost function BlockBytes(fifo: seq<CacheKey>, n: nat): nat
    requires n <= |fifo|
  {
    if n == 0 then 0 else BlockBytes(fifo, n - 1) + fifo[n - 1].blockLength
  }

  /** The first-in first-out list and the table have the same keys, each once, with the right lengths. */
  ghost predicate SameKeys(fifo: seq<CacheKey>, mem: map<Sha1, seq<Byte>>) {
    && (forall i :: 0 <= i < |fifo| ==> fifo[i].sha1name in mem && |mem[fifo[i].sha1name]| == fifo[i].blockLength)
    && (forall n :: n in mem ==> Listed(fifo, n))
    && (forall i, j :: 0 <= i < j < |fifo| ==> fifo[i].sha1name != fifo[j].sha1name)
  }

  ghost predicate Listed(fifo: seq<CacheKey>, n: Sha1) {
    exists i :: 0 <= i < |fifo| && fifo[i].sha1name == n
  }

  lemma {:induction false} HeldSplit(z: Sizes, fifo: seq<CacheKey>, v: nat, n: nat)
    requires v <= n <= |fifo|
    ensures Held(z, fifo, n) == Held(z, fifo, v) + Held(z, fifo[v..], n - v)
    decreases n
  {
    if n > v {
      HeldSplit(z, fifo, v, n - 1);
      assert fifo[v..][n - v - 1] == fifo[n - 1];
    }
  }

  lemma {:induction false} HeldPrefix(z: Sizes, a: seq<CacheKey>, b: seq<CacheKey>, n: nat)
    requires n <= |a| && n <= |b| && forall i :: 0 <= i < n ==> a[i] == b[i]
    ensures Held(z, a, n) == Held(z, b, n)
  {
    if n > 0 {
      HeldPrefix(z, a, b, n - 1);
    }
  }

  lemma HeldAppend(z: Sizes, fifo: seq<CacheKey>, c: CacheKey)
    ensures Held(z, fifo + [c], |fifo| + 1) == Held(z, fifo, |fifo|) + z.key + z.value + c.blockLength
  {
    HeldPrefix(z, fifo, fifo + [c], |fifo|);
  }

  lemma {:induction false} BlocksHeld(z: Sizes, fifo: seq<CacheKey>, n: nat)
    requires n <= |fifo|
    ensures BlockBytes(fifo, n) <= Held(z, fifo, n)
  {
    if n > 0 {
      BlocksHeld(z, fifo, n - 1);
    }
  }

  /** By how much the counter exceeds the bytes held after so many evictions: a value record each. */
  ghost function Drift(z: Sizes, evicted: nat): nat {
    z.value * evicted
  }

  lemma DriftNext(z: Sizes, evicted: nat)
    ensures Drift(z, evicted + 1) == Drift(z, evicted) + z.value
  {
  }

  /** The list with the keys from k to v taken out. */
  function Cut(fifo: seq<CacheKey>, k: nat, v: nat): seq<CacheKey>
    requires k <= v <= |fifo|
  {
    fifo[..k] + fifo[v..]
  }

  lemma HeldNothing(z: Sizes, fifo: seq<CacheKey>)
    ensures Held(z, fifo, 0) == 0 && BlockBytes(fifo, 0) == 0
  {
  }

  lemma VictimSize(fifo: seq<CacheKey>, mem: map<Sha1, seq<Byte>>, v: nat)
    requires SameKeys(fifo, mem) && v < |fifo|
    ensures fifo[v].sha1name in mem && BlockBytes(fifo, v + 1) == BlockBytes(fifo, v) + |mem[fifo[v].sha1name]|
  {
  }

  lemma HeldCut(z: Sizes, fifo: seq<CacheKey>, k: nat, v: nat)
    requires k < v <= |fifo|
    ensures Held(z, Cut(fifo, k, v), |Cut(fifo, k, v)|) + z.key + z.value + fifo[k].blockLength
            == Held(z, Cut(fifo, k + 1, v), |Cut(fifo, k + 1, v)|)
  {
    HeldCutIs(z, fifo, k, v);
    HeldCutIs(z, fifo, k + 1, v);
  }

  lemma HeldCutIs(z: Sizes, fifo: seq<CacheKey>, k: nat, v: nat)
    requires k <= v <= |fifo|
    ensures Held(z, Cut(fifo, k, v), |Cut(fifo, k, v)|) == Held(z, fifo, k) + Held(z, fifo[v..], |fifo| - v)
  {
    var c := Cut(fifo, k, v);
    HeldSplit(z, c, k, |c|);
    HeldPrefix(z, fifo, c, k);
    assert c[k..] == fifo[v..];
  }

  /** Removing the last key of the part that goes. */
  lemma CutKeys(fifo: seq<CacheKey>, mem: map<Sha1, seq<Byte>>, k: nat, v: nat)
    requires k < v <= |fifo| && SameKeys(Cut(fifo, k + 1, v), mem)
    ensures SameKeys(Cut(fifo, k, v), mem - {fifo[k].sha1name}) && fifo[k].sha1name in mem
  {
    hide Cut;
    var a, b := Cut(fifo, k + 1, v), Cut(fifo, k, v);
    CutOne(fifo, k, v);
    RemoveKey(a, b, mem, k);
  }

  lemma CutEnds(fifo: seq<CacheKey>, v: nat)
    requires v <= |fifo|
    ensures Cut(fifo, v, v) == fifo && Cut(fifo, 0, v) == fifo[v..] && fifo[0..] == fifo
  {
  }

  lemma CutOne(fifo: seq<CacheKey>, k: nat, v: nat)
    requires k < v <= |fifo|
    ensures var a, b := Cut(fifo, k + 1, v), Cut(fifo, k, v);
            k < |a| && a[k] == fifo[k] && b == a[..k] + a[k + 1..]
  {
  }

  /** Taking key k out of the list and its block out of the table. */
  lemma RemoveKey(a: seq<CacheKey>, b: seq<CacheKey>, mem: map<Sha1, seq<Byte>>, k: nat)
    requires SameKeys(a, mem) && k < |a| && b == a[..k] + a[k + 1..]
    ensures SameKeys(b, mem - {a[k].sha1name}) && a[k].sha1name in mem
  {
    hide Listed;
    var m := mem - {a[k].sha1name};
    RemovedAt(a, b, k);
    forall n | n in m ensures Listed(b, n) {
      ListedWithout(a, b, k, n);
    }
  }

  lemma RemovedAt(a: seq<CacheKey>, b: seq<CacheKey>, k: nat)
    requires k < |a| && b == a[..k] + a[k + 1..]
    ensures |b| == |a| - 1 && forall i :: 0 <= i < |b| ==> b[i] == a[if i < k then i else i + 1]
  {
  }

  lemma ListedWithout(a: seq<CacheKey>, b: seq<CacheKey>, k: nat, n: Sha1)
    requires k < |a| && b == a[..k] + a[k + 1..] && Listed(a, n) && n != a[k].sha1name
    ensures Listed(b, n)
  {
    var i :| 0 <= i < |a| && a[i].sha1name == n;
    assert b[if i < k then i else i - 1] == a[i];
  }

  // ---------------------------------------------------------------- the program

  class Cache {
    const z: Sizes
    var mem: map<Sha1, seq<Byte>>
    var fifo: seq<CacheKey>
    var cacheSize: int
    var numKeys: int
    /** How many entries have been evicted. */
    ghost var evicted: nat

    /**
     The counter exceeds the bytes held by one value record for each eviction; the bytes held are
     within the limit unless a single entry remains.
     */
    ghost predicate Valid()
      reads this
    {
      && SameKeys(fifo, mem) && numKeys == |fifo| && z.key > 0
      && cacheSize == Held(z, fifo, |fifo|) + Drift(z, evicted)
      && (|fifo| <= 1 || Held(z, fifo, |fifo|) <= z.max)
    }

    constructor (z: Sizes)
      requires z.key > 0
      ensures Valid() && this.z == z && fifo == [] && evicted == 0
    {
      this.z := z;
      mem, fifo, cacheSize, numKeys, evicted := map[], [], 0, 0, 0;
    }

    /** How many of the oldest entries to evict: as few as give twice the needed size, or all. */
    method ChooseVictims(neededSize: nat) returns (v: nat)
      requires SameKeys(fifo, mem)
      ensures v <= |fifo| && (v == |fifo| || BlockBytes(fifo, v) >= 2 * neededSize)
      ensures forall k :: 0 <= k < v ==> BlockBytes(fifo, k) < 2 * neededSize
    {
      hide SameKeys, BlockBytes;
      HeldNothing(z, fifo);
      var targetSize := neededSize * 2;
      v := 0;
      while v < |fifo| && targetSize > 0
        invariant v <= |fifo| && targetSize == 2 * neededSize - BlockBytes(fifo, v)
        invariant forall k :: 0 <= k < v ==> BlockBytes(fifo, k) < 2 * neededSize
      {
        VictimSize(fifo, mem, v);
        targetSize := targetSize - |mem[fifo[v].sha1name]|;
        v := v + 1;
      }
    }

    /** Make room: when the counter would pass the limit, evict the oldest entries. */
    method CheckCache(neededSize: nat) returns (ghost v: nat)
      requires Valid() && neededSize > 0
      modifies this
      ensures v <= |old(fifo)| && fifo == old(fifo)[v..] && SameKeys(fifo, mem) && numKeys == |fifo|
      ensures evicted == old(evicted) + v
      ensures forall n :: n in mem ==> n in old(mem) && mem[n] == old(mem)[n]
      ensures cacheSize == Held(z, fifo, |fifo|) + Drift(z, evicted)
      ensures old(cacheSize) + neededSize <= z.max ==> v == 0
      ensures old(cacheSize) + neededSize > z.max ==> v == |old(fifo)| || BlockBytes(old(fifo), v) >= 2 * neededSize
      ensures old(cacheSize) + neededSize > z.max ==>
                forall k :: 0 <= k < v ==> BlockBytes(old(fifo), k) < 2 * neededSize
    {
      hide SameKeys, Held, BlockBytes, Drift, Cut;
      ghost var f := fifo;
      v := 0;
      CutEnds(f, v);
      if cacheSize + neededSize <= z.max {
        return;
      }
      var k := ChooseVictims(neededSize);
      v := k;
      CutEnds(f, v);
      while k > 0
        invariant 0 <= k <= v && fifo == Cut(f, k, v) && SameKeys(fifo, mem) && numKeys == |fifo|
        invariant evicted == old(evicted) + v - k
        invariant forall n :: n in mem ==> n in old(mem) && mem[n] == old(mem)[n]
        invariant cacheSize == Held(z, fifo, |fifo|) + Drift(z, evicted)
      {
        k := k - 1;
        CutKeys(f, mem, k, v);
        HeldCut(z, f, k, v);
        CutOne(f, k, v);
        var walk := fifo[k];
        fifo := fifo[..k] + fifo[k + 1..];
        numKeys := numKeys - 1;
        cacheSize := cacheSize - (z.key + walk.blockLength);
        mem := mem - {walk.sha1name};
        evicted := evicted + 1;
        DriftNext(z, evicted - 1);
      }
    }

    /** Add a block unless it is there; the oldest entries make room. */
    method PutMemory(sha1name: Sha1, block: seq<Byte>) returns (ghost v: nat)
      requires Valid()
      modifies this
      ensures Valid() && cacheSize >= Held(z, fifo, |fifo|)
      ensures sha1name in old(mem) ==> mem == old(mem) && fifo == old(fifo) && cacheSize == old(cacheSize)
      ensures sha1name !in old(mem) ==>
                && v <= |old(fifo)| && fifo == old(fifo)[v..] + [CacheKey(sha1name, |block|)]
                && evicted == old(evicted) + v
                && sha1name in mem && mem[sha1name] == block
                && (old(cacheSize) + z.key + z.value + |block| <= z.max ==> v == 0)
      ensures forall n :: n in mem && n != sha1name ==> n in old(mem) && mem[n] == old(mem)[n]
    {
      hide SameKeys, Held, BlockBytes, Drift;
      v := 0;
      if sha1name in mem {
        return;
      }
      var newSize := z.key + z.value + |block|;
      ghost var f, total := fifo, cacheSize;
      v := CheckCache(newSize);
      RoomMade(z, f, v, total, newSize, old(evicted));
      PutKeys(fifo, mem, sha1name, block);
      HeldAppend(z, fifo, CacheKey(sha1name, |block|));
      mem := mem[sha1name := block];
      fifo := fifo + [CacheKey(sha1name, |block|)];
      numKeys := numKeys + 1;
      cacheSize := cacheSize + newSize;
    }
  }

  /** After the eviction the new entry fits, or it will be the only one. */
  lemma RoomMade(z: Sizes, f: seq<CacheKey>, v: nat, total: int, need: nat, evicted: nat)
    requires v <= |f| && total == Held(z, f, |f|) + Drift(z, evicted) && need > 0
    requires |f| <= 1 || Held(z, f, |f|) <= z.max
    requires total + need <= z.max ==> v == 0
    requires total + need > z.max ==> v == |f| || BlockBytes(f, v) >= 2 * need
    requires total + need > z.max ==> forall k :: 0 <= k < v ==> BlockBytes(f, k) < 2 * need
    ensures v == |f| || Held(z, f[v..], |f| - v) + need <= z.max
  {
    hide Held, Drift, BlockBytes;
    HeldSplit(z, f, v, |f|);
    BlocksHeld(z, f, v);
    HeldNothing(z, f);
  }

  lemma PutKeys(fifo: seq<CacheKey>, mem: map<Sha1, seq<Byte>>, n: Sha1, block: seq<Byte>)
    requires SameKeys(fifo, mem) && n !in mem
    ensures SameKeys(fifo + [CacheKey(n, |block|)], mem[n := block])
  {
    hide Listed;
    var g := fifo + [CacheKey(n, |block|)];
    assert forall i :: 0 <= i < |fifo| ==> g[i] == fifo[i];
    var m := mem[n := block];
    forall x | x in m ensures Listed(g, x) {
      ListedAppend(fifo, CacheKey(n, |block|), x);
    }
  }

  lemma ListedAppend(fifo: seq<CacheKey>, c: CacheKey, n: Sha1)
    ensures Listed(fifo + [c], n) <==> Listed(fifo, n) || n == c.sha1name
  {
    var g := fifo + [c];
    assert g[|fifo|] == c && forall i :: 0 <= i < |fifo| ==> g[i] == fifo[i];
  }
}
