/**
 The reference-counted chunk table of the receiver and reassembly of one block
 (waprox/chunkcache.c, waprox/reassemble.c).
 */
module ChunkTable {
  import opened Bytes
  import opened ChunkNames

  datatype CacheValue = CacheValue(block: seq<Byte>, refCount: int)

  type Table = map<Sha1, CacheValue>

  /** A name and the length announced with it. */
  datatype ChunkNameInfo = ChunkNameInfo(name: Sha1, length: nat)

  /** Every entry is referenced and holds a non-empty block with the right hash. */
  ghost predicate Sound(t: Table, sha: seq<Byte> -> Sha1) {
    forall n :: n in t ==> t[n].refCount >= 1 && t[n].block != [] && sha(t[n].block) == n
  }

  ghost predicate Counted(t: Table) {
    forall n :: n in t ==> t[n].refCount >= 1
  }

  /** The references a name has. */
  ghost function Count(t: Table, n: Sha1): int {
    if n in t then t[n].refCount else 0
  }

  /** How often a name occurs among the first i of a list. */
  ghost function Need(l: seq<ChunkNameInfo>, i: nat, n: Sha1): nat
    requires i <= |l|
  {
    if i == 0 then 0 else Need(l, i - 1, n) + if l[i - 1].name == n then 1 else 0
  }

  /** No name is needed more often than it is referenced. */
  ghost predicate Available(t: Table, l: seq<ChunkNameInfo>) {
    forall n :: Need(l, |l|, n) <= Count(t, n)
  }

  ghost function BlockOf(t: Table, n: Sha1): seq<Byte> {
    if n in t then t[n].block else []
  }

  /** The blocks of the first i names, one after another. */
  ghost function Blocks(t: Table, l: seq<ChunkNameInfo>, i: nat): seq<Byte>
    requires i <= |l|
  {
    if i == 0 then [] else Blocks(t, l, i - 1) + BlockOf(t, l[i - 1].name)
  }

  /** The table with one reference of each of the first i names given back: entries that reach zero are gone. */
  ghost function Released(t: Table, l: seq<ChunkNameInfo>, i: nat): Table
    requires i <= |l|
  {
    map n | n in t && t[n].refCount > Need(l, i, n) :: CacheValue(t[n].block, t[n].refCount - Need(l, i, n))
  }

  lemma {:induction false} NeedGrows(l: seq<ChunkNameInfo>, i: nat, j: nat, n: Sha1)
    requires i <= j <= |l|
    ensures Need(l, i, n) <= Need(l, j, n)
    decreases j
  {
    if i < j {
      NeedGrows(l, i, j - 1, n);
    }
  }

  lemma NeedMember(l: seq<ChunkNameInfo>, i: nat)
    requires i < |l|
    ensures Need(l, |l|, l[i].name) >= Need(l, i + 1, l[i].name) == Need(l, i, l[i].name) + 1
  {
    NeedGrows(l, i + 1, |l|, l[i].name);
  }

  // ---------------------------------------------------------------- checking

  /** c references have been taken from t in list order and j of them put back, which gives u. */
  ghost predicate Moved(t: Table, l: seq<ChunkNameInfo>, u: Table, c: nat, j: nat) {
    && j <= c <= |l| && u.Keys == t.Keys
    && (forall n :: n in t ==> u[n].block == t[n].block)
    && (forall n :: n in t ==> u[n].refCount == t[n].refCount - Need(l, c, n) + Need(l, j, n))
  }

  /** The first i names can be had. */
  ghost predicate Covered(t: Table, l: seq<ChunkNameInfo>, i: nat) {
    i <= |l| && forall n :: Need(l, i, n) <= Count(t, n)
  }

  /** The first c names are in the table and at most one reference is overdrawn. */
  ghost predicate Overdrawn(t: Table, l: seq<ChunkNameInfo>, c: nat) {
    && c <= |l|
    && (forall k :: 0 <= k < c ==> l[k].name in t)
    && (forall n :: n in t ==> Need(l, c, n) <= t[n].refCount + 1)
  }

  lemma TakeMissing(t: Table, l: seq<ChunkNameInfo>, i: nat)
    requires i < |l| && l[i].name !in t
    ensures !Available(t, l)
  {
    NeedMember(l, i);
    assert Need(l, |l|, l[i].name) > Count(t, l[i].name);
  }

  lemma TakeMoves(t: Table, l: seq<ChunkNameInfo>, u: Table, i: nat, v: Table)
    requires Moved(t, l, u, i, 0) && i < |l| && l[i].name in u
    requires v == u[l[i].name := u[l[i].name].(refCount := u[l[i].name].refCount - 1)]
    ensures Moved(t, l, v, i + 1, 0)
  {
  }

  lemma TakeOverdraws(t: Table, l: seq<ChunkNameInfo>, i: nat)
    requires Covered(t, l, i) && Overdrawn(t, l, i) && i < |l| && l[i].name in t
    ensures Overdrawn(t, l, i + 1)
  {
    forall n | n in t ensures Need(l, i + 1, n) <= t[n].refCount + 1 {
      assert Need(l, i, n) <= Count(t, n);
    }
  }

  /** A count that stays non-negative covers one more name; one that does not shows the list unavailable. */
  lemma TakeCovers(t: Table, l: seq<ChunkNameInfo>, v: Table, i: nat)
    requires Covered(t, l, i) && i < |l| && l[i].name in t && Moved(t, l, v, i + 1, 0)
    ensures v[l[i].name].refCount >= 0 ==> Covered(t, l, i + 1)
    ensures v[l[i].name].refCount < 0 ==> !Available(t, l)
  {
    var name := l[i].name;
    NeedMember(l, i);
    assert v[name].refCount < 0 ==> Need(l, |l|, name) > Count(t, name);
    if v[name].refCount >= 0 {
      forall n ensures Need(l, i + 1, n) <= Count(t, n) {
        assert Need(l, i, n) <= Count(t, n);
      }
    }
  }

  lemma RestoreMoves(t: Table, l: seq<ChunkNameInfo>, u: Table, c: nat, j: nat, v: Table)
    requires Moved(t, l, u, c, j) && j < c && l[j].name in u
    requires v == u[l[j].name := u[l[j].name].(refCount := u[l[j].name].refCount + 1)]
    ensures Moved(t, l, v, c, j + 1)
  {
  }

  /** The assertion of the restoring loop: the count is non-negative once restored. */
  lemma RestoreSafe(t: Table, l: seq<ChunkNameInfo>, u: Table, c: nat, j: nat)
    requires Moved(t, l, u, c, j) && j < c && Overdrawn(t, l, c)
    ensures l[j].name in u && u[l[j].name].refCount + 1 >= 0
  {
    assert Need(l, c, l[j].name) <= t[l[j].name].refCount + 1;
  }

  lemma MovedBack(t: Table, l: seq<ChunkNameInfo>, u: Table, c: nat)
    requires Moved(t, l, u, c, c)
    ensures u == t
  {
    forall n | n in t ensures u[n] == t[n] {
    }
  }

  // ---------------------------------------------------------------- flushing

  lemma ReleaseNone(t: Table, l: seq<ChunkNameInfo>)
    requires Counted(t)
    ensures Released(t, l, 0) == t
  {
    forall n | n in t ensures CacheValue(t[n].block, t[n].refCount) == t[n] {
    }
  }

  /** In an available list the next name always has a reference left. */
  lemma ReleaseHas(t: Table, l: seq<ChunkNameInfo>, i: nat)
    requires Available(t, l) && i < |l|
    ensures var n := l[i].name; n in t && n in Released(t, l, i) && Released(t, l, i)[n].block == t[n].block
  {
    NeedMember(l, i);
    assert Need(l, |l|, l[i].name) <= Count(t, l[i].name);
  }

  lemma ReleaseStep(t: Table, l: seq<ChunkNameInfo>, i: nat)
    requires i < |l| && l[i].name in Released(t, l, i)
    ensures Released(t, l, i + 1) == Flushed(Released(t, l, i), l[i].name)
  {
    var u, v := Released(t, l, i), Flushed(Released(t, l, i), l[i].name);
    var w := Released(t, l, i + 1);
    forall n ensures n in v <==> n in w {
      assert Need(l, i + 1, n) == Need(l, i, n) + if l[i].name == n then 1 else 0;
    }
    forall n | n in w ensures v[n] == w[n] {
      assert Need(l, i + 1, n) == Need(l, i, n) + if l[i].name == n then 1 else 0;
    }
  }

  /** The table after one reference is dropped; the entry goes with its last one. */
  ghost function Flushed(t: Table, n: Sha1): Table
    requires n in t
  {
    if t[n].refCount == 1 then t - {n} else t[n := CacheValue(t[n].block, t[n].refCount - 1)]
  }

  lemma ReleasedSound(t: Table, l: seq<ChunkNameInfo>, sha: seq<Byte> -> Sha1)
    requires Sound(t, sha)
    ensures Sound(Released(t, l, |l|), sha)
  {
  }

  /** Only an empty list of names in a sound table stands for no bytes. */
  lemma BlocksPositive(t: Table, l: seq<ChunkNameInfo>)
    requires Available(t, l) && l != [] && (forall n :: n in t ==> t[n].block != [])
    ensures |Blocks(t, l, |l|)| > 0
  {
    ReleaseHas(t, l, |l| - 1);
  }

  // ---------------------------------------------------------------- the temporary cache

  class TempCache {
    var tab: Table

    constructor ()
      ensures tab == map[]
    {
      tab := map[];
    }

    /** Add a reference to a chunk, storing its block if it is new. */
    method RefPut(name: Sha1, block: seq<Byte>, ghost sha: seq<Byte> -> Sha1)
      requires Sound(tab, sha) && sha(block) == name
      modifies this
      ensures Sound(tab, sha)
      ensures block == [] ==> tab == old(tab)
      ensures block != [] && name !in old(tab) ==> tab == old(tab)[name := CacheValue(block, 1)]
      ensures block != [] && name in old(tab) ==>
                tab == old(tab)[name := CacheValue(old(tab)[name].block, old(tab)[name].refCount + 1)]
    {
      if |block| == 0 {
        return;
      }
      if name !in tab {
        tab := tab[name := CacheValue(block, 1)];
      } else {
        tab := tab[name := tab[name].(refCount := tab[name].refCount + 1)];
      }
    }

    /** Drop one reference; the entry goes with its last one. */
    method RefFlush(name: Sha1)
      requires name in tab && tab[name].refCount >= 1
      modifies this
      ensures tab == Flushed(old(tab), name)
    {
      tab := tab[name := tab[name].(refCount := tab[name].refCount - 1)];
      if tab[name].refCount == 0 {
        tab := tab - {name};
      }
    }

    /** Take references for the names in order, until one is missing or exhausted. */
    method TakeRefs(l: seq<ChunkNameInfo>) returns (complete: bool, checked: nat, len: nat)
      requires Counted(tab)
      modifies this
      ensures Moved(old(tab), l, tab, checked, 0) && Overdrawn(old(tab), l, checked)
      ensures complete <==> Available(old(tab), l)
      ensures complete ==> checked == |l| && len == |Blocks(old(tab), l, |l|)|
    {
      hide Covered, Overdrawn, Available, Counted, Moved;
      ghost var t := tab;
      complete, checked, len := true, 0, 0;
      TakeStart(t, l);
      while checked < |l|
        invariant 0 <= checked <= |l| && complete && tab.Keys == t.Keys
        invariant Moved(t, l, tab, checked, 0) && Covered(t, l, checked) && Overdrawn(t, l, checked)
        invariant len == |Blocks(t, l, checked)|
      {
        var name := l[checked].name;
        if name !in tab {
          complete := false;
          TakeMissing(t, l, checked);
          return;
        }
        ghost var u := tab;
        tab := tab[name := tab[name].(refCount := tab[name].refCount - 1)];
        TakeMoves(t, l, u, checked, tab);
        TakeOverdraws(t, l, checked);
        TakeCovers(t, l, tab, checked);
        MovedBlock(t, l, tab, checked + 1, name);
        len := len + |tab[name].block|;
        checked := checked + 1;
        if tab[name].refCount < 0 {
          complete := false;
          return;
        }
      }
      TakeDone(t, l);
    }

    /** Whether the table holds every reference the list needs; nothing is changed. */
    method CheckOneChunkTree(l: seq<ChunkNameInfo>) returns (len: nat)
      requires Counted(tab)
      modifies this
      ensures tab == old(tab)
      ensures len == if Available(tab, l) then |Blocks(tab, l, |l|)| else 0
    {
      hide Available, Moved, Overdrawn, Counted;
      ghost var t := tab;
      var complete, checked, total := TakeRefs(l);
      OverdrawnRange(t, l, checked);
      for j := 0 to checked
        invariant Moved(t, l, tab, checked, j) && Overdrawn(t, l, checked) && checked <= |l|
      {
        RestoreSafe(t, l, tab, checked, j);
        ghost var u := tab;
        tab := tab[l[j].name := tab[l[j].name].(refCount := tab[l[j].name].refCount + 1)];
        RestoreMoves(t, l, u, checked, j, tab);
      }
      MovedBack(t, l, tab, checked);
      len := if complete then total else 0;
    }

    /**
     Reassemble one block: when every chunk is there, the blocks in list order, with their
     references dropped; otherwise nothing happens.
     */
    method ReconstructOneChunkTree(l: seq<ChunkNameInfo>) returns (ok: bool, buffer: seq<Byte>)
      requires Counted(tab) && forall n :: n in tab ==> tab[n].block != []
      modifies this
      ensures ok <==> l != [] && Available(old(tab), l)
      ensures ok ==> buffer == Blocks(old(tab), l, |l|) && tab == Released(old(tab), l, |l|)
      ensures ok ==> forall n ::
                Count(tab, n) == Count(old(tab), n) - Need(l, |l|, n) && (n in tab <==> Count(tab, n) > 0)
      ensures !ok ==> buffer == [] && tab == old(tab)
    {
      hide Available, Released, Flushed, Need, Count;
      ok, buffer := false, [];
      if |l| == 0 {
        return;
      }
      ghost var t := tab;
      var len := CheckOneChunkTree(l);
      if Available(t, l) {
        BlocksPositive(t, l);
      }
      if len == 0 {
        return;
      }
      ReleaseNone(t, l);
      for i := 0 to |l|
        invariant tab == Released(t, l, i) && buffer == Blocks(t, l, i)
      {
        ReleaseHas(t, l, i);
        ReleasePositive(t, l, i);
        ReleaseStep(t, l, i);
        buffer := buffer + tab[l[i].name].block;
        RefFlush(l[i].name);
      }
      ReleasedCount(t, l);
      ok := true;
    }
  }

  /** Every occurrence of a name takes one reference, and names without references are gone. */
  lemma ReleasedCount(t: Table, l: seq<ChunkNameInfo>)
    requires Available(t, l) && Counted(t)
    ensures var u := Released(t, l, |l|);
            forall n :: Count(u, n) == Count(t, n) - Need(l, |l|, n) && (n in u <==> Count(u, n) > 0)
  {
    hide Need;
    var u := Released(t, l, |l|);
    forall n ensures Count(u, n) == Count(t, n) - Need(l, |l|, n) && (n in u <==> Count(u, n) > 0) {
      assert Need(l, |l|, n) <= Count(t, n);
    }
  }

  lemma TakeStart(t: Table, l: seq<ChunkNameInfo>)
    requires Counted(t)
    ensures Moved(t, l, t, 0, 0) && Covered(t, l, 0) && Overdrawn(t, l, 0)
  {
  }

  lemma TakeDone(t: Table, l: seq<ChunkNameInfo>)
    requires Covered(t, l, |l|)
    ensures Available(t, l)
  {
  }

  lemma MovedBlock(t: Table, l: seq<ChunkNameInfo>, u: Table, c: nat, n: Sha1)
    requires Moved(t, l, u, c, 0) && n in t
    ensures n in u && u[n].block == t[n].block
  {
  }

  lemma OverdrawnRange(t: Table, l: seq<ChunkNameInfo>, c: nat)
    requires Overdrawn(t, l, c)
    ensures c <= |l|
  {
  }

  lemma ReleasePositive(t: Table, l: seq<ChunkNameInfo>, i: nat)
    requires i <= |l|
    ensures Counted(Released(t, l, i))
  {
  }
}
