/**
 Intelligent load shedding (waprox/ils.c): chunks wait in one disk queue per peer or in the network
 queue, and the smallest chunks of the slowest disk queue move to the network until the network
 is the slower one.
 */
module Ils {
  /** sizeof(WABodyResponse) + sizeof(WAOneResponse), packed. */
  const OVERHEAD: nat := 35

  /**
   ChunkNameInfo, of which id is the address: the peer to fetch it from, and the destination proxy of
   its connection.
   */
  datatype Chunk = Chunk(id: nat, length: nat, peerIdx: nat, dstPxyIdx: nat)

  datatype Queue = Queue(q: seq<Chunk>, totBytes: nat, latency: real)

  /** Configuration and load: link speed in Kbps, round trip and seek in ms, pending work. */
  datatype Load = Load(seek: nat, bw: nat, rtt: nat, diskPending: seq<int>, networkPending: nat) {
    predicate Valid() { bw > 0 }

    /** Pending disk chunks, a negative count being taken as none. */
    function PendingAt(i: nat): nat {
      if i < |diskPending| && diskPending[i] > 0 then diskPending[i] else 0
    }

    function DiskLatency(i: nat, n: nat): real {
      (seek * (n + PendingAt(i))) as real
    }

    function NetworkLatency(bytes: nat): real
      requires Valid()
    {
      ((bytes + networkPending) as real) * 8.0 / (bw as real) + rtt as real
    }

    /** What one more chunk costs the network. */
    function Cost(c: Chunk): real
      requires Valid()
    {
      ((c.length + OVERHEAD) as real) * 8.0 / (bw as real)
    }
  }

  lemma NetworkMore(l: Load, bytes: nat, c: Chunk)
    requires l.Valid()
    ensures l.NetworkLatency(bytes + c.length + OVERHEAD) == l.NetworkLatency(bytes) + l.Cost(c)
  {
    var x, y, b := (bytes + l.networkPending) as real, (c.length + OVERHEAD) as real, l.bw as real;
    assert (x + y) * 8.0 / b == x * 8.0 / b + y * 8.0 / b;
  }

  lemma DiskLess(l: Load, i: nat, m: nat, n: nat)
    requires m <= n
    ensures l.DiskLatency(i, m) <= l.DiskLatency(i, n)
  {
    assert l.seek * (n + l.PendingAt(i)) == l.seek * (m + l.PendingAt(i)) + l.seek * (n - m);
  }

  lemma NetworkPositive(l: Load, bytes: nat)
    requires l.Valid()
    ensures l.NetworkLatency(bytes) >= 0.0
  {
  }

  // ---------------------------------------------------------------- sorting, largest first

  ghost predicate LargestFirst(s: seq<Chunk>) {
    forall i, j :: 0 <= i < j < |s| ==> s[i].length >= s[j].length
  }

  function Insert(s: seq<Chunk>, c: Chunk): seq<Chunk> {
    if s == [] || c.length >= s[0].length then [c] + s else [s[0]] + Insert(s[1..], c)
  }

  function Sort(s: seq<Chunk>): seq<Chunk> {
    if s == [] then [] else Insert(Sort(s[1..]), s[0])
  }

  lemma {:induction false} InsertSorted(s: seq<Chunk>, c: Chunk)
    requires LargestFirst(s)
    ensures LargestFirst(Insert(s, c)) && multiset(Insert(s, c)) == multiset(s) + multiset{c}
  {
    if s != [] && c.length < s[0].length {
      InsertSorted(s[1..], c);
      InsertBounded(s[1..], c, s[0].length);
      LargerFirst(s[0], Insert(s[1..], c));
      assert s == [s[0]] + s[1..];
    } else {
      LargerFirst(c, s);
    }
  }

  lemma {:induction false} InsertBounded(s: seq<Chunk>, c: Chunk, bound: nat)
    requires c.length <= bound && forall k :: 0 <= k < |s| ==> s[k].length <= bound
    ensures forall k :: 0 <= k < |Insert(s, c)| ==> Insert(s, c)[k].length <= bound
  {
    if s != [] && c.length < s[0].length {
      InsertBounded(s[1..], c, bound);
    }
  }

  lemma LargerFirst(c: Chunk, s: seq<Chunk>)
    requires LargestFirst(s) && forall k :: 0 <= k < |s| ==> s[k].length <= c.length
    ensures LargestFirst([c] + s)
  {
  }

  lemma {:induction false} SortSorted(s: seq<Chunk>)
    ensures LargestFirst(Sort(s)) && multiset(Sort(s)) == multiset(s)
  {
    if s != [] {
      SortSorted(s[1..]);
      InsertSorted(Sort(s[1..]), s[0]);
      assert s == [s[0]] + s[1..];
    }
  }

  // ---------------------------------------------------------------- all chunks

  ghost function Lengths(s: seq<Chunk>): nat {
    if s == [] then 0 else Lengths(s[..|s| - 1]) + s[|s| - 1].length
  }

  /** The chunks of the first n disk queues. */
  ghost function AllDisk(disk: seq<Queue>, n: nat): multiset<Chunk>
    requires n <= |disk|
  {
    if n == 0 then multiset{} else AllDisk(disk, n - 1) + multiset(disk[n - 1].q)
  }

  ghost function All(disk: seq<Queue>, network: Queue): multiset<Chunk> {
    AllDisk(disk, |disk|) + multiset(network.q)
  }

  lemma {:induction false} AllDiskSame(a: seq<Queue>, b: seq<Queue>, n: nat)
    requires n <= |a| && n <= |b| && forall i :: 0 <= i < n ==> multiset(a[i].q) == multiset(b[i].q)
    ensures AllDisk(a, n) == AllDisk(b, n)
  {
    if n > 0 {
      AllDiskSame(a, b, n - 1);
    }
  }

  /** Taking a chunk off one queue takes it off the whole. */
  lemma {:induction false} AllDiskTake(a: seq<Queue>, b: seq<Queue>, m: nat, c: Chunk, n: nat)
    requires n <= |a| == |b| && m < |a| && (forall i :: 0 <= i < |a| && i != m ==> b[i].q == a[i].q)
    requires a[m].q == b[m].q + [c]
    ensures AllDisk(a, n) == if m < n then AllDisk(b, n) + multiset{c} else AllDisk(b, n)
  {
    hide AllDisk;
    if n <= m {
      AllDiskSame(a, b, n);
    } else if n - 1 == m {
      AllDiskLast(a, b, m, c);
    } else {
      AllDiskTake(a, b, m, c, n - 1);
      AllDiskNext(a, n);
      AllDiskNext(b, n);
      BagSwap(AllDisk(b, n - 1), multiset(b[n - 1].q), multiset{c});
    }
  }

  lemma AllDiskLast(a: seq<Queue>, b: seq<Queue>, m: nat, c: Chunk)
    requires m < |a| && m < |b| && (forall i :: 0 <= i < m ==> b[i].q == a[i].q) && a[m].q == b[m].q + [c]
    ensures AllDisk(a, m + 1) == AllDisk(b, m + 1) + multiset{c}
  {
    hide AllDisk;
    AllDiskSame(a, b, m);
    AllDiskNext(a, m + 1);
    AllDiskNext(b, m + 1);
    BagSnoc(AllDisk(b, m), b[m].q, c);
  }

  lemma AllDiskNext(a: seq<Queue>, n: nat)
    requires n <= |a|
    ensures AllDisk(a, n) == if n == 0 then multiset{} else AllDisk(a, n - 1) + multiset(a[n - 1].q)
  {
  }

  lemma BagSnoc(t: multiset<Chunk>, q: seq<Chunk>, c: Chunk)
    ensures t + multiset(q + [c]) == t + multiset(q) + multiset{c}
  {
  }

  lemma BagSwap(t: multiset<Chunk>, x: multiset<Chunk>, c: multiset<Chunk>)
    ensures t + c + x == t + x + c
  {
  }

  lemma {:induction false} InAllDisk(disk: seq<Queue>, i: nat, k: nat, n: nat)
    requires i < n <= |disk| && k < |disk[i].q|
    ensures disk[i].q[k] in AllDisk(disk, n)
  {
    if i < n - 1 {
      InAllDisk(disk, i, k, n - 1);
    } else {
      assert disk[i].q[k] in multiset(disk[i].q);
    }
  }

  /** No chunk occurs twice, and the identity tells chunks apart. */
  ghost predicate Separate(ms: multiset<Chunk>) {
    (forall c :: c in ms ==> ms[c] == 1) && (forall c, d :: c in ms && d in ms && c.id == d.id ==> c == d)
  }

  /** The flag isNetwork is set for exactly the chunks of the network queue. */
  ghost predicate FlagsRight(disk: seq<Queue>, network: Queue, flags: set<nat>) {
    && (forall k :: 0 <= k < |network.q| ==> network.q[k].id in flags)
    && (forall i, k :: 0 <= i < |disk| && 0 <= k < |disk[i].q| ==> disk[i].q[k].id !in flags)
  }

  /** No chunk waits twice, and the flags say where it waits. */
  ghost predicate Distinct(disk: seq<Queue>, network: Queue, flags: set<nat>) {
    Separate(All(disk, network)) && FlagsRight(disk, network, flags)
  }

  /** A chunk of a disk queue is not in the network queue. */
  lemma DiskNotNetwork(disk: seq<Queue>, network: Queue, i: nat, k: nat, x: nat)
    requires Separate(All(disk, network)) && i < |disk| && k < |disk[i].q| && x < |network.q|
    ensures disk[i].q[k].id != network.q[x].id
  {
    InAllDisk(disk, i, k, |disk|);
    assert network.q[x] in multiset(network.q);
    var ms := All(disk, network);
    assert disk[i].q[k] == network.q[x] ==> ms[network.q[x]] >= 2;
  }

  // ---------------------------------------------------------------- scheduling

  /** Byte counts and latencies are up to date. */
  ghost predicate UpToDate(l: Load, disk: seq<Queue>, network: Queue)
    requires l.Valid()
  {
    && (forall i :: 0 <= i < |disk| ==>
          disk[i].totBytes == Lengths(disk[i].q) && disk[i].latency == l.DiskLatency(i, |disk[i].q|))
    && network.latency == l.NetworkLatency(network.totBytes)
  }

  /** The state of the scheduling loop: what has moved, from where, and what it cost. */
  ghost predicate Moving(l: Load, d0: seq<Queue>, n0: Queue, f0: set<nat>, disk: seq<Queue>, network: Queue,
                         flags: set<nat>, moved: seq<Chunk>)
    requires l.Valid()
  {
    && UpToDate(l, disk, network) && |disk| == |d0|
    && (forall i :: 0 <= i < |d0| ==> |disk[i].q| <= |d0[i].q| && disk[i].q == d0[i].q[..|disk[i].q|])
    && network.q == n0.q + moved && network.totBytes == n0.totBytes + Lengths(moved) + OVERHEAD * |moved|
    && All(disk, network) == All(d0, n0)
    && flags == f0 + Ids(moved)
  }

  /** The network is no slower than before, or than the slowest disk queue was plus its last chunk. */
  ghost predicate NetworkBounded(l: Load, d0: seq<Queue>, n0: Queue, network: Queue, moved: seq<Chunk>)
    requires l.Valid()
  {
    if moved == [] then network.latency == n0.latency
    else exists i :: 0 <= i < |d0| && network.latency < d0[i].latency + l.Cost(moved[|moved| - 1])
  }

  /** The disk queue m without its last chunk. */
  function TakeLast(l: Load, disk: seq<Queue>, m: nat): seq<Queue>
    requires m < |disk| && disk[m].q != [] && disk[m].totBytes >= disk[m].q[|disk[m].q| - 1].length
  {
    var s := disk[m].q;
    disk[m := Queue(s[..|s| - 1], disk[m].totBytes - s[|s| - 1].length, l.DiskLatency(m, |s| - 1))]
  }

  function Add(l: Load, network: Queue, c: Chunk): Queue
    requires l.Valid()
  {
    var bytes := network.totBytes + c.length + OVERHEAD;
    Queue(network.q + [c], bytes, l.NetworkLatency(bytes))
  }

  lemma LastFits(l: Load, disk: seq<Queue>, network: Queue, m: nat)
    requires l.Valid() && UpToDate(l, disk, network) && m < |disk| && disk[m].q != []
    ensures disk[m].totBytes >= disk[m].q[|disk[m].q| - 1].length
  {
  }

  lemma MoveUpToDate(l: Load, disk: seq<Queue>, network: Queue, m: nat, c: Chunk)
    requires l.Valid() && UpToDate(l, disk, network) && m < |disk| && disk[m].q != []
    requires disk[m].totBytes >= disk[m].q[|disk[m].q| - 1].length
    ensures UpToDate(l, TakeLast(l, disk, m), Add(l, network, c))
  {
    hide Load.DiskLatency, Load.NetworkLatency;
  }

  lemma MoveKeeps(l: Load, d0: seq<Queue>, n0: Queue, f0: set<nat>, disk: seq<Queue>, network: Queue, flags: set<nat>,
                  moved: seq<Chunk>, m: nat)
    requires l.Valid() && Moving(l, d0, n0, f0, disk, network, flags, moved) && m < |disk| && disk[m].q != []
    requires disk[m].totBytes >= disk[m].q[|disk[m].q| - 1].length
    ensures var c := disk[m].q[|disk[m].q| - 1];
            Moving(l, d0, n0, f0, TakeLast(l, disk, m), Add(l, network, c), flags + {c.id}, moved + [c])
  {
    hide UpToDate, Load.DiskLatency, Load.NetworkLatency, All, Ids;
    var c := disk[m].q[|disk[m].q| - 1];
    MoveUpToDate(l, disk, network, m, c);
    MoveAll(l, disk, network, m);
    MoveIds(moved, c);
    assert n0.q + moved + [c] == n0.q + (moved + [c]);
    assert (moved + [c])[..|moved|] == moved;
    assert d0[m].q[..|disk[m].q|][..|disk[m].q| - 1] == d0[m].q[..|disk[m].q| - 1];
  }

  lemma MoveAll(l: Load, disk: seq<Queue>, network: Queue, m: nat)
    requires l.Valid() && m < |disk| && disk[m].q != [] && disk[m].totBytes >= disk[m].q[|disk[m].q| - 1].length
    ensures var c := disk[m].q[|disk[m].q| - 1]; All(TakeLast(l, disk, m), Add(l, network, c)) == All(disk, network)
  {
    hide Load.DiskLatency, Load.NetworkLatency, AllDisk;
    var c := disk[m].q[|disk[m].q| - 1];
    var b := TakeLast(l, disk, m);
    assert disk[m].q == b[m].q + [c];
    AllDiskTake(disk, b, m, c, |disk|);
  }

  ghost function Ids(s: seq<Chunk>): set<nat> {
    set k | 0 <= k < |s| :: s[k].id
  }

  lemma MoveIds(s: seq<Chunk>, c: Chunk)
    ensures Ids(s + [c]) == Ids(s) + {c.id}
  {
    var t := s + [c];
    assert t[|s|] == c && forall k :: 0 <= k < |s| ==> t[k] == s[k];
  }

  /** The slowest disk queue. */
  method FindSlowest(disk: seq<Queue>) returns (maxLatency: real, maxPeer: nat)
    ensures maxLatency >= -1.0 && forall i :: 0 <= i < |disk| ==> disk[i].latency <= maxLatency
    ensures maxLatency > -1.0 ==> maxPeer < |disk| && maxLatency == disk[maxPeer].latency
  {
    maxLatency, maxPeer := -1.0, 0;
    for i := 0 to |disk|
      invariant maxLatency >= -1.0 && forall k :: 0 <= k < i ==> disk[k].latency <= maxLatency
      invariant maxLatency > -1.0 ==> maxPeer < i && maxLatency == disk[maxPeer].latency
    {
      if disk[i].latency > maxLatency {
        maxLatency, maxPeer := disk[i].latency, i;
      }
    }
  }

  /** Chunks that moved are flagged and no others: the assertion of the loop, and what holds at the end. */
  lemma MovedFlags(l: Load, d0: seq<Queue>, n0: Queue, f0: set<nat>, disk: seq<Queue>, network: Queue, flags: set<nat>,
                   moved: seq<Chunk>)
    requires l.Valid() && Moving(l, d0, n0, f0, disk, network, flags, moved)
    requires Distinct(d0, n0, f0)
    ensures FlagsRight(disk, network, flags)
  {
    hide UpToDate, Separate, All;
    forall i, k | 0 <= i < |disk| && 0 <= k < |disk[i].q| ensures disk[i].q[k].id !in flags {
      assert disk[i].q[k] == d0[i].q[k];
      forall x | 0 <= x < |moved| ensures moved[x].id != disk[i].q[k].id {
        assert network.q[|n0.q| + x] == moved[x];
        DiskNotNetwork(disk, network, i, k, |n0.q| + x);
      }
    }
    forall k | 0 <= k < |network.q| ensures network.q[k].id in flags {
      assert k < |n0.q| ==> network.q[k] == n0.q[k];
      assert k >= |n0.q| ==> network.q[k] == moved[k - |n0.q|];
    }
  }

  /** The chunk about to move is not flagged yet. */
  lemma StillClear(l: Load, d0: seq<Queue>, n0: Queue, f0: set<nat>, disk: seq<Queue>, network: Queue, flags: set<nat>,
                   moved: seq<Chunk>, m: nat)
    requires l.Valid() && Moving(l, d0, n0, f0, disk, network, flags, moved) && m < |disk| && disk[m].q != []
    ensures Distinct(d0, n0, f0) ==> disk[m].q[|disk[m].q| - 1].id !in flags
  {
    hide Moving, Distinct;
    if Distinct(d0, n0, f0) {
      MovedFlags(l, d0, n0, f0, disk, network, flags, moved);
    }
  }

  /** What remains of a queue sorted largest first is no smaller than what left it. */
  lemma SmallestMoved(l: Load, d0: seq<Queue>, n0: Queue, f0: set<nat>, disk: seq<Queue>, network: Queue,
                      flags: set<nat>, moved: seq<Chunk>, i: nat, j: nat, k: nat)
    requires l.Valid() && Moving(l, d0, n0, f0, disk, network, flags, moved) && i < |d0| && LargestFirst(d0[i].q)
    requires j < |disk[i].q| <= k < |d0[i].q|
    ensures disk[i].q[j].length >= d0[i].q[k].length
  {
  }

  /** A move made while the network was the faster one bounds its new latency. */
  lemma MoveBound(l: Load, d0: seq<Queue>, n0: Queue, f0: set<nat>, disk: seq<Queue>, network: Queue, flags: set<nat>,
                  moved: seq<Chunk>, m: nat, c: Chunk)
    requires l.Valid() && Moving(l, d0, n0, f0, disk, network, flags, moved) && UpToDate(l, d0, n0) && m < |disk|
    requires disk[m].latency > network.latency
    ensures NetworkBounded(l, d0, n0, Add(l, network, c), moved + [c])
  {
    hide All, Load.NetworkLatency, Load.DiskLatency, Load.Cost;
    NetworkMore(l, network.totBytes, c);
    DiskLess(l, m, |disk[m].q|, |d0[m].q|);
    assert Add(l, network, c).latency < d0[m].latency + l.Cost(c);
    assert (moved + [c])[|moved|] == c;
  }

  /** A queue that lost chunks was, before it lost the last of them, no faster than any queue is now. */
  ghost predicate Fair(l: Load, d0: seq<Queue>, disk: seq<Queue>) {
    |disk| == |d0| && forall i, k :: 0 <= i < |disk| && 0 <= k < |disk| && |disk[i].q| < |d0[i].q| ==>
      disk[k].latency <= l.DiskLatency(i, |disk[i].q| + 1)
  }

  /** Taking a chunk off the slowest queue is fair. */
  lemma FairStep(l: Load, d0: seq<Queue>, disk: seq<Queue>, network: Queue, m: nat)
    requires l.Valid() && Fair(l, d0, disk) && UpToDate(l, disk, network) && m < |disk| && disk[m].q != []
    requires forall k :: 0 <= k < |disk| ==> disk[k].latency <= disk[m].latency
    requires disk[m].totBytes >= disk[m].q[|disk[m].q| - 1].length
    ensures Fair(l, d0, TakeLast(l, disk, m))
  {
    hide Load.DiskLatency, Load.NetworkLatency;
    var b := TakeLast(l, disk, m);
    DiskLess(l, m, |disk[m].q| - 1, |disk[m].q|);
    forall i, k | 0 <= i < |b| && 0 <= k < |b| && |b[i].q| < |d0[i].q|
      ensures b[k].latency <= l.DiskLatency(i, |b[i].q| + 1)
    {
      assert b[k].latency <= disk[k].latency;
    }
  }

  lemma FairStart(l: Load, d0: seq<Queue>)
    ensures Fair(l, d0, d0)
  {
  }

  // ---------------------------------------------------------------- the program

  class Scheduler {
    const load: Load
    var disk: seq<Queue>
    var network: Queue
    /** The chunks whose isNetwork is set. */
    var isNetwork: set<nat>

    constructor (load: Load, disk: seq<Queue>, network: Queue, isNetwork: set<nat>)
      ensures this.load == load && this.disk == disk && this.network == network && this.isNetwork == isNetwork
    {
      this.load, this.disk, this.network, this.isNetwork := load, disk, network, isNetwork;
    }

    /** Sort all queues, largest chunk first, and compute their latencies. */
    method SortQueues()
      requires load.Valid() && forall i :: 0 <= i < |disk| ==> disk[i].totBytes == Lengths(disk[i].q)
      modifies this`disk, this`network
      ensures |disk| == |old(disk)| && UpToDate(load, disk, network) && network.totBytes == old(network).totBytes
      ensures forall i :: 0 <= i < |disk| ==> LargestFirst(disk[i].q) && multiset(disk[i].q) == multiset(old(disk)[i].q)
      ensures LargestFirst(network.q) && multiset(network.q) == multiset(old(network).q)
    {
      hide Load.DiskLatency, Load.NetworkLatency, LargestFirst, Sort;
      ghost var d := disk;
      for i := 0 to |disk|
        invariant |disk| == |d| && network == old(network) && forall k :: i <= k < |d| ==> disk[k] == d[k]
        invariant forall k :: 0 <= k < i ==>
                    disk[k] == Queue(Sort(d[k].q), d[k].totBytes, load.DiskLatency(k, |d[k].q|))
      {
        SortSorted(disk[i].q);
        SameSize(disk[i].q, Sort(disk[i].q));
        disk := disk[i := Queue(Sort(disk[i].q), disk[i].totBytes, load.DiskLatency(i, |disk[i].q|))];
      }
      forall k | 0 <= k < |d|
        ensures && LargestFirst(disk[k].q) && multiset(disk[k].q) == multiset(d[k].q) && |disk[k].q| == |d[k].q|
                && Lengths(disk[k].q) == Lengths(d[k].q)
      {
        SortSorted(d[k].q);
        SameSize(d[k].q, disk[k].q);
        SameLengths(d[k].q, disk[k].q);
      }
      SortSorted(network.q);
      network := Queue(Sort(network.q), network.totBytes, load.NetworkLatency(network.totBytes));
    }

    /**
     Move the smallest chunk of the slowest disk queue to the network until the network is no faster
     or that queue is empty.
     */
    method FindBestSchedule() returns (numMove: nat, ghost d0: seq<Queue>, ghost n0: Queue, ghost moved: seq<Chunk>)
      requires load.Valid() && forall i :: 0 <= i < |disk| ==> disk[i].totBytes == Lengths(disk[i].q)
      modifies this
      ensures |d0| == |disk| == |old(disk)| && multiset(n0.q) == multiset(old(network).q)
      ensures forall i :: 0 <= i < |d0| ==> LargestFirst(d0[i].q) && multiset(d0[i].q) == multiset(old(disk)[i].q)
      ensures UpToDate(load, d0, n0) && Moving(load, d0, n0, old(isNetwork), disk, network, isNetwork, moved)
      ensures numMove == |moved|
      ensures All(disk, network) == old(All(disk, network))
      ensures NetworkBounded(load, d0, n0, network, moved) && Fair(load, d0, disk)
      ensures (forall i :: 0 <= i < |disk| ==> disk[i].latency <= network.latency)
              || (exists i :: 0 <= i < |disk| && disk[i].q == [] && forall k :: 0 <= k < |disk| ==>
                    disk[k].latency <= disk[i].latency)
      ensures old(Distinct(disk, network, isNetwork)) ==> FlagsRight(disk, network, isNetwork)
    {
      hide Load.DiskLatency, Load.NetworkLatency, Load.Cost, LargestFirst, All, Distinct, FlagsRight, Moving;
      hide NetworkBounded, UpToDate, Fair;
      ghost var before, beforeNet := disk, network;
      SortQueues();
      d0, n0, moved, numMove := disk, network, [], 0;
      ghost var f0 := isNetwork;
      AllSame(before, beforeNet, d0, n0);
      DistinctSame(before, beforeNet, d0, n0, f0);
      MovingStart(load, d0, n0, f0);
      FairStart(load, d0);
      while true
        invariant Moving(load, d0, n0, f0, disk, network, isNetwork, moved) && numMove == |moved| && |disk| == |d0|
        invariant NetworkBounded(load, d0, n0, network, moved) && Fair(load, d0, disk)
        decreases Waiting(disk, |disk|)
      {
        var maxLatency, maxPeer := FindSlowest(disk);
        MovingFacts(load, d0, n0, f0, disk, network, isNetwork, moved);
        if maxLatency <= network.latency {
          break;
        }
        if |disk[maxPeer].q| == 0 {
          break;
        }
        var cni := disk[maxPeer].q[|disk[maxPeer].q| - 1];
        MoveOne(load, d0, n0, f0, disk, network, isNetwork, moved, maxPeer);
        FairStep(load, d0, disk, network, maxPeer);
        assert Distinct(d0, n0, f0) ==> cni.id !in isNetwork;
        disk := TakeLast(load, disk, maxPeer);
        network := Add(load, network, cni);
        isNetwork := isNetwork + {cni.id};
        moved := moved + [cni];
        numMove := numMove + 1;
      }
      MovingFacts(load, d0, n0, f0, disk, network, isNetwork, moved);
      if Distinct(d0, n0, f0) {
        MovedFlags(load, d0, n0, f0, disk, network, isNetwork, moved);
      }
    }
  }

  /** The last chunk of the slowest disk queue is not flagged yet, and may move to the network. */
  lemma MoveOne(l: Load, d0: seq<Queue>, n0: Queue, f0: set<nat>, disk: seq<Queue>, network: Queue, flags: set<nat>,
                moved: seq<Chunk>, m: nat)
    requires l.Valid() && Moving(l, d0, n0, f0, disk, network, flags, moved) && UpToDate(l, d0, n0)
    requires UpToDate(l, disk, network)
    requires m < |disk| && disk[m].q != [] && disk[m].latency > network.latency
    ensures disk[m].totBytes >= disk[m].q[|disk[m].q| - 1].length
    ensures var c := disk[m].q[|disk[m].q| - 1];
            && (Distinct(d0, n0, f0) ==> c.id !in flags)
            && Moving(l, d0, n0, f0, TakeLast(l, disk, m), Add(l, network, c), flags + {c.id}, moved + [c])
            && NetworkBounded(l, d0, n0, Add(l, network, c), moved + [c])
            && Waiting(TakeLast(l, disk, m), |disk|) == Waiting(disk, |disk|) - 1
  {
    hide Moving, Distinct, UpToDate, NetworkBounded, Waiting, TakeLast, Add;
    StillClear(l, d0, n0, f0, disk, network, flags, moved, m);
    LastFits(l, disk, network, m);
    MoveKeeps(l, d0, n0, f0, disk, network, flags, moved, m);
    MoveBound(l, d0, n0, f0, disk, network, flags, moved, m, disk[m].q[|disk[m].q| - 1]);
    WaitingLess(l, disk, m, |disk|);
  }

  /** How many chunks wait in the first n disk queues. */
  ghost function Waiting(disk: seq<Queue>, n: nat): nat
    requires n <= |disk|
  {
    if n == 0 then 0 else Waiting(disk, n - 1) + |disk[n - 1].q|
  }

  lemma {:induction false} WaitingLess(l: Load, disk: seq<Queue>, m: nat, n: nat)
    requires n <= |disk| && m < |disk| && disk[m].q != [] && disk[m].totBytes >= disk[m].q[|disk[m].q| - 1].length
    ensures Waiting(TakeLast(l, disk, m), n) == Waiting(disk, n) - if m < n then 1 else 0
  {
    if n > 0 {
      WaitingLess(l, disk, m, n - 1);
    }
  }

  lemma MovingStart(l: Load, d0: seq<Queue>, n0: Queue, f0: set<nat>)
    requires l.Valid() && UpToDate(l, d0, n0)
    ensures Moving(l, d0, n0, f0, d0, n0, f0, []) && NetworkBounded(l, d0, n0, n0, [])
  {
  }

  lemma MovingFacts(l: Load, d0: seq<Queue>, n0: Queue, f0: set<nat>, disk: seq<Queue>, network: Queue, flags: set<nat>,
                    moved: seq<Chunk>)
    requires l.Valid() && Moving(l, d0, n0, f0, disk, network, flags, moved)
    ensures |disk| == |d0| && UpToDate(l, disk, network) && All(disk, network) == All(d0, n0) && network.latency >= 0.0
  {
    NetworkPositive(l, network.totBytes);
  }

  lemma AllSame(a: seq<Queue>, n: Queue, b: seq<Queue>, m: Queue)
    requires |a| == |b| && multiset(n.q) == multiset(m.q) && forall i :: 0 <= i < |a| ==>
               multiset(a[i].q) == multiset(b[i].q)
    ensures All(a, n) == All(b, m)
  {
    AllDiskSame(a, b, |a|);
  }

  lemma DistinctSame(a: seq<Queue>, n: Queue, b: seq<Queue>, m: Queue, flags: set<nat>)
    requires |a| == |b| && multiset(n.q) == multiset(m.q) && forall i :: 0 <= i < |a| ==>
               multiset(a[i].q) == multiset(b[i].q)
    ensures Distinct(a, n, flags) ==> Distinct(b, m, flags)
  {
    hide All, Separate, FlagsRight;
    AllSame(a, n, b, m);
    FlagsSame(a, n, b, m, flags);
  }

  lemma FlagsSame(a: seq<Queue>, n: Queue, b: seq<Queue>, m: Queue, flags: set<nat>)
    requires |a| == |b| && multiset(n.q) == multiset(m.q) && forall i :: 0 <= i < |a| ==>
               multiset(a[i].q) == multiset(b[i].q)
    ensures FlagsRight(a, n, flags) ==> FlagsRight(b, m, flags)
  {
    if FlagsRight(a, n, flags) {
      forall k | 0 <= k < |m.q| ensures m.q[k].id in flags {
        var x := From(n.q, m.q, k);
      }
      forall i, k | 0 <= i < |b| && 0 <= k < |b[i].q| ensures b[i].q[k].id !in flags {
        var x := From(a[i].q, b[i].q, k);
      }
    }
  }

  lemma From(s: seq<Chunk>, t: seq<Chunk>, k: nat) returns (x: nat)
    requires multiset(s) == multiset(t) && k < |t|
    ensures x < |s| && s[x] == t[k]
  {
    assert t[k] in multiset(t);
    assert t[k] in s;
    x :| 0 <= x < |s| && s[x] == t[k];
  }

  lemma SameSize(s: seq<Chunk>, t: seq<Chunk>)
    requires multiset(s) == multiset(t)
    ensures |s| == |t|
  {
    assert |multiset(s)| == |s| && |multiset(t)| == |t|;
  }

  lemma {:induction false} LengthsWithout(s: seq<Chunk>, k: nat)
    requires k < |s|
    ensures Lengths(s) == Lengths(s[..k] + s[k + 1..]) + s[k].length
    decreases |s|
  {
    var n := |s| - 1;
    var t := s[..k] + s[k + 1..];
    if k == n {
      assert t == s[..n];
    } else {
      LengthsWithout(s[..n], k);
      assert t[..n - 1] == s[..n][..k] + s[..n][k + 1..];
      assert t[n - 1] == s[n];
    }
  }

  lemma {:induction false} SameLengths(s: seq<Chunk>, t: seq<Chunk>)
    requires multiset(s) == multiset(t)
    ensures Lengths(s) == Lengths(t)
    decreases |s|
  {
    SameSize(s, t);
    if s != [] {
      var n := |s| - 1;
      var k := From(t, s, n);
      LengthsWithout(t, k);
      assert s == s[..n] + [s[n]];
      assert t == t[..k] + [t[k]] + t[k + 1..];
      assert multiset(s[..n]) == multiset(s) - multiset{s[n]};
      assert multiset(t) == multiset(t[..k]) + multiset{t[k]} + multiset(t[k + 1..]);
      assert multiset(t[..k] + t[k + 1..]) == multiset(t) - multiset{t[k]};
      SameLengths(s[..n], t[..k] + t[k + 1..]);
    }
  }
}
