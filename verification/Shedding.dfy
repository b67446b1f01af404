/**
 One round of load shedding (IntelligentLoadShedding and SendChunkRequest in waprox/ils.c): the chunks of
 the ready blocks are put on the queues, the schedule is chosen, and the chunks are requested in the order
 of their blocks.
 */
module Shedding {
  import opened Ils
  import opened Populate

  /** Where a chunk is asked for: at this host, at its peer, or at the destination proxy of its connection. */
  datatype Way = Local | Peer | Origin

  datatype Request = Request(chunk: Chunk, way: Way)

  /** SendChunkRequest: a peer that is the destination proxy itself is not asked. */
  function WayOf(c: Chunk, isNetwork: set<nat>, localHosts: set<nat>): Way {
    if c.id in isNetwork then Origin
    else if c.peerIdx in localHosts || c.peerIdx == c.dstPxyIdx then Local
    else Peer
  }

  /** The requests for the chunks of the send queue, in order. */
  function Requests(send: seq<Chunk>, isNetwork: set<nat>, localHosts: set<nat>): seq<Request> {
    if send == [] then []
    else
      var c := send[|send| - 1];
      Requests(send[..|send| - 1], isNetwork, localHosts) + [Request(c, WayOf(c, isNetwork, localHosts))]
  }

  /** The chunks asked for at their origin. */
  function OfOrigin(rs: seq<Request>): seq<Chunk> {
    if rs == [] then []
    else OfOrigin(rs[..|rs| - 1]) + if rs[|rs| - 1].way == Origin then [rs[|rs| - 1].chunk] else []
  }

  /** The chunks a disk is asked for on behalf of peer p. */
  function OfPeer(rs: seq<Request>, p: nat): seq<Chunk> {
    if rs == [] then []
    else
      OfPeer(rs[..|rs| - 1], p) +
      if rs[|rs| - 1].way != Origin && rs[|rs| - 1].chunk.peerIdx == p then [rs[|rs| - 1].chunk] else []
  }

  /**
   Where each request goes: to the origin when the chunk is flagged for the network, to this host when its
   peer is this host or the destination proxy, else to its peer.
   */
  ghost predicate Directed(rs: seq<Request>, isNetwork: set<nat>, localHosts: set<nat>) {
    forall k :: 0 <= k < |rs| ==>
      && (rs[k].way == Origin <==> rs[k].chunk.id in isNetwork)
      && (rs[k].way == Local <==>
            rs[k].chunk.id !in isNetwork
            && (rs[k].chunk.peerIdx in localHosts || rs[k].chunk.peerIdx == rs[k].chunk.dstPxyIdx))
  }

  // ---------------------------------------------------------------- the requests follow the schedule

  /** Every chunk waits in the disk queue of its peer. */
  ghost predicate AtPeers(disk: seq<Queue>) {
    forall i, k :: 0 <= i < |disk| && 0 <= k < |disk[i].q| ==> disk[i].q[k].peerIdx == i
  }

  lemma RequestsMore(send: seq<Chunk>, c: Chunk, flags: set<nat>, localHosts: set<nat>, p: nat)
    ensures var rs, w := Requests(send, flags, localHosts), WayOf(c, flags, localHosts);
            && Requests(send + [c], flags, localHosts) == rs + [Request(c, w)]
            && OfOrigin(rs + [Request(c, w)]) == OfOrigin(rs) + (if w == Origin then [c] else [])
            && OfPeer(rs + [Request(c, w)], p) == OfPeer(rs, p) + (if w != Origin && c.peerIdx == p then [c] else [])
  {
    var rs, w := Requests(send, flags, localHosts), WayOf(c, flags, localHosts);
    assert (send + [c])[..|send|] == send;
    assert (rs + [Request(c, w)])[..|rs|] == rs;
  }

  lemma CountMore(s: seq<Chunk>, d: Chunk, more: bool, c: Chunk)
    ensures multiset(s + if more then [d] else [])[c] == multiset(s)[c] + if more && d == c then 1 else 0
  {
    assert s + [] == s;
  }

  lemma NoneAsked(send: seq<Chunk>, flags: set<nat>, localHosts: set<nat>, p: nat)
    requires send == []
    ensures Requests(send, flags, localHosts) == [] && OfOrigin(Requests(send, flags, localHosts)) == []
    ensures OfPeer(Requests(send, flags, localHosts), p) == []
  {
  }

  /** Every chunk of the send queue is asked for, in order. */
  lemma {:induction false} AskedInOrder(send: seq<Chunk>, flags: set<nat>, localHosts: set<nat>)
    ensures var rs := Requests(send, flags, localHosts); |rs| == |send| && forall k :: 0 <= k < |send| ==>
              rs[k].chunk == send[k] && rs[k].way == WayOf(send[k], flags, localHosts)
  {
    if send != [] {
      AskedInOrder(send[..|send| - 1], flags, localHosts);
    }
  }

  /** How often a chunk is asked for at its origin and on behalf of a peer. */
  lemma {:induction false} AskedOften(send: seq<Chunk>, flags: set<nat>, localHosts: set<nat>, p: nat, c: Chunk)
    ensures var rs := Requests(send, flags, localHosts);
            && multiset(OfOrigin(rs))[c] == (if c.id in flags then multiset(send)[c] else 0)
            && multiset(OfPeer(rs, p))[c] == (if c.id !in flags && c.peerIdx == p then multiset(send)[c] else 0)
  {
    hide Requests, OfOrigin, OfPeer;
    if send == [] {
      NoneAsked(send, flags, localHosts, p);
    } else {
      var n := |send| - 1;
      var t, d := send[..n], send[n];
      var rs, w := Requests(t, flags, localHosts), WayOf(d, flags, localHosts);
      AskedOften(t, flags, localHosts, p, c);
      assert send == t + [d];
      RequestsMore(t, d, flags, localHosts, p);
      CountMore(t, d, true, c);
      CountMore(OfOrigin(rs), d, w == Origin, c);
      CountMore(OfPeer(rs, p), d, w != Origin && d.peerIdx == p, c);
    }
  }

  lemma CountSum(s: multiset<Chunk>, t: multiset<Chunk>, c: Chunk)
    ensures (s + t)[c] == s[c] + t[c]
  {
  }

  /** How often a chunk waits in the first n disk queues: as often as in that of its peer. */
  lemma {:induction false} AtPeerOnly(disk: seq<Queue>, n: nat, c: Chunk)
    requires AtPeers(disk) && n <= |disk|
    ensures AllDisk(disk, n)[c] == if c.peerIdx < n then multiset(disk[c.peerIdx].q)[c] else 0
  {
    hide AtPeers, AllDisk;
    AllDiskNext(disk, n);
    if n > 0 {
      AtPeerOnly(disk, n - 1, c);
      CountSum(AllDisk(disk, n - 1), multiset(disk[n - 1].q), c);
      if c.peerIdx != n - 1 {
        NotElsewhere(disk, n - 1, c);
      }
    }
  }

  lemma NotElsewhere(disk: seq<Queue>, p: nat, c: Chunk)
    requires AtPeers(disk) && p < |disk| && c.peerIdx != p
    ensures multiset(disk[p].q)[c] == 0
  {
    assert c !in disk[p].q;
  }

  /** A flagged chunk is in no disk queue, and any other not in the network queue. */
  lemma FlaggedApart(disk: seq<Queue>, network: Queue, flags: set<nat>, c: Chunk)
    requires FlagsRight(disk, network, flags)
    ensures forall p :: 0 <= p < |disk| && c.id in flags ==> multiset(disk[p].q)[c] == 0
    ensures c.id !in flags ==> multiset(network.q)[c] == 0
  {
    forall p | 0 <= p < |disk| && c.id in flags ensures multiset(disk[p].q)[c] == 0 {
      assert c !in disk[p].q;
    }
    assert c.id !in flags ==> c !in network.q;
  }

  /** A chunk is asked for as often as it waits, and there where it waits. */
  lemma AskedAsQueued(send: seq<Chunk>, disk: seq<Queue>, network: Queue, flags: set<nat>, localHosts: set<nat>,
                      p: nat, c: Chunk)
    requires All(disk, network) == multiset(send) && FlagsRight(disk, network, flags) && AtPeers(disk)
    ensures multiset(OfOrigin(Requests(send, flags, localHosts)))[c] == multiset(network.q)[c]
    ensures p < |disk| ==> multiset(OfPeer(Requests(send, flags, localHosts), p))[c] == multiset(disk[p].q)[c]
  {
    hide FlagsRight, AtPeers, AllDisk, Requests, OfOrigin, OfPeer;
    AskedOften(send, flags, localHosts, p, c);
    AtPeerOnly(disk, |disk|, c);
    FlaggedApart(disk, network, flags, c);
    assert multiset(send)[c] == AllDisk(disk, |disk|)[c] + multiset(network.q)[c];
    if p < |disk| && c.peerIdx != p {
      NotElsewhere(disk, p, c);
    }
  }

  /** Each chunk of the send queue is asked for, in order; of each place, those of its queue. */
  ghost predicate Follow(send: seq<Chunk>, disk: seq<Queue>, network: Queue, rs: seq<Request>) {
    && |rs| == |send| && (forall k :: 0 <= k < |send| ==> rs[k].chunk == send[k])
    && multiset(OfOrigin(rs)) == multiset(network.q)
    && (forall p :: 0 <= p < |disk| ==> multiset(OfPeer(rs, p)) == multiset(disk[p].q))
  }

  /** The requests follow the schedule: the flags alone make them those the queues stand for. */
  lemma RequestsFollow(send: seq<Chunk>, disk: seq<Queue>, network: Queue, flags: set<nat>, localHosts: set<nat>)
    requires All(disk, network) == multiset(send) && FlagsRight(disk, network, flags) && AtPeers(disk)
    ensures Follow(send, disk, network, Requests(send, flags, localHosts))
  {
    hide FlagsRight, AtPeers, All, Requests, OfOrigin, OfPeer;
    var rs := Requests(send, flags, localHosts);
    AskedInOrder(send, flags, localHosts);
    forall c ensures multiset(OfOrigin(rs))[c] == multiset(network.q)[c] {
      AskedAsQueued(send, disk, network, flags, localHosts, 0, c);
    }
    forall p | 0 <= p < |disk| ensures multiset(OfPeer(rs, p)) == multiset(disk[p].q) {
      forall c ensures multiset(OfPeer(rs, p))[c] == multiset(disk[p].q)[c] {
        AskedAsQueued(send, disk, network, flags, localHosts, p, c);
      }
    }
  }

  // ---------------------------------------------------------------- what the queues were filled with

  /** No record of a name is met twice. */
  ghost predicate Own(ws: seq<Wanted>) {
    forall j, k :: 0 <= j < k < |ws| ==> ws[j].chunk.id != ws[k].chunk.id
  }

  lemma {:induction false} FetchedNamed(ws: seq<Wanted>, c: Chunk)
    requires c in ToFetch(ws)
    ensures exists k :: 0 <= k < |ws| && ws[k].chunk == c
  {
    var n := |ws| - 1;
    if c in ToFetch(ws[..n]) {
      FetchedNamed(ws[..n], c);
      var k :| 0 <= k < n && ws[..n][k].chunk == c;
      assert ws[k].chunk == c;
    } else {
      assert ws[n].chunk == c;
    }
  }

  /** So the chunks to fetch are separate. */
  lemma {:induction false} OwnSeparate(ws: seq<Wanted>)
    requires Own(ws)
    ensures Separate(multiset(ToFetch(ws)))
  {
    if ws != [] {
      var n := |ws| - 1;
      OwnSeparate(ws[..n]);
      forall c | c in ToFetch(ws[..n]) ensures c.id != ws[n].chunk.id {
        FetchedNamed(ws[..n], c);
      }
      SeparateMore(ToFetch(ws[..n]), ws[n].chunk, !ws[n].inMemory);
    }
  }

  lemma SeparateMore(s: seq<Chunk>, c: Chunk, more: bool)
    requires Separate(multiset(s)) && forall d :: d in s ==> d.id != c.id
    ensures Separate(multiset(s + if more then [c] else []))
  {
    assert s + [] == s;
    forall d | d in multiset(s) ensures d in s {
    }
  }

  lemma {:induction false} HitsAtPeer(ws: seq<Wanted>, p: nat)
    ensures forall k :: 0 <= k < |HitsAt(ws, p)| ==> HitsAt(ws, p)[k].peerIdx == p
  {
    if ws != [] {
      HitsAtPeer(ws[..|ws| - 1], p);
    }
  }

  lemma FilledAtPeers(ws: seq<Wanted>, disk: seq<Queue>)
    requires HitsFilled(ws, disk)
    ensures AtPeers(disk)
  {
    hide HitsAt;
    forall i, k | 0 <= i < |disk| && 0 <= k < |disk[i].q| ensures disk[i].q[k].peerIdx == i {
      HitsAtPeer(ws, i);
    }
  }

  /** Queues filled with separate chunks are what the schedule starts from. */
  lemma FilledDistinct(ws: seq<Wanted>, disk: seq<Queue>, network: Queue, send: Queue, flags: set<nat>)
    requires Filled(ws, disk, network, send, flags)
    ensures AtPeers(disk) && (Own(ws) ==> Distinct(disk, network, flags))
  {
    hide All, Separate, FlagsRight, Lengths, ToFetch, Own, AtPeers, HitsFilled;
    FilledAtPeers(ws, disk);
    if Own(ws) {
      OwnSeparate(ws);
    }
  }

  // ---------------------------------------------------------------- the whole round

  /** The network is no faster than any disk queue, or a slowest disk queue has nothing left to move. */
  ghost predicate Balanced(disk: seq<Queue>, network: Queue) {
    || (forall i :: 0 <= i < |disk| ==> disk[i].latency <= network.latency)
    || (exists i :: 0 <= i < |disk| && disk[i].q == [] && forall k :: 0 <= k < |disk| ==>
          disk[k].latency <= disk[i].latency)
  }

  /** Chunks only ever leave the disk queues for the network queue. */
  ghost predicate Moved(ws: seq<Wanted>, disk: seq<Queue>, network: Queue) {
    && multiset(Misses(ws)) <= multiset(network.q)
    && (forall p :: 0 <= p < |disk| ==> multiset(disk[p].q) <= multiset(HitsAt(ws, p)))
  }

  lemma PrefixIn(s: seq<Chunk>, n: nat)
    requires n <= |s|
    ensures multiset(s[..n]) <= multiset(s)
  {
    assert s == s[..n] + s[n..];
  }

  /** What the schedule did to queues filled as above. */
  lemma MovedFrom(l: Load, ws: seq<Wanted>, disk1: seq<Queue>, network1: Queue, d0: seq<Queue>, n0: Queue, f0: set<nat>,
                  disk: seq<Queue>, network: Queue, flags: set<nat>, moved: seq<Chunk>)
    requires l.Valid() && Moving(l, d0, n0, f0, disk, network, flags, moved) && |d0| == |disk1|
    requires HitsFilled(ws, disk1) && network1.q == Misses(ws) && multiset(n0.q) == multiset(network1.q)
    requires forall i :: 0 <= i < |d0| ==> multiset(d0[i].q) == multiset(disk1[i].q)
    ensures Moved(ws, disk, network) && AtPeers(disk)
  {
    hide UpToDate, All, Ids, HitsAt, Misses;
    PrefixIn(network.q, |n0.q|);
    assert network.q[..|n0.q|] == n0.q;
    forall p | 0 <= p < |disk| ensures multiset(disk[p].q) <= multiset(HitsAt(ws, p)) {
      PrefixIn(d0[p].q, |disk[p].q|);
    }
    forall i, k | 0 <= i < |disk| && 0 <= k < |disk[i].q| ensures disk[i].q[k].peerIdx == i {
      HitsAtPeer(ws, i);
      assert disk[i].q[k] in multiset(disk[i].q);
      assert disk[i].q[k] in HitsAt(ws, i);
    }
  }

  /** What the queues are once scheduled: all chunks of the send queue, where the schedule put them. */
  ghost predicate Ready(ws: seq<Wanted>, disk: seq<Queue>, network: Queue, send: Queue, flags: set<nat>) {
    && send.q == ToFetch(ws) && All(disk, network) == multiset(send.q) && Moved(ws, disk, network) && AtPeers(disk)
    && (Own(ws) ==> FlagsRight(disk, network, flags))
  }

  lemma FilledReady(ws: seq<Wanted>, disk: seq<Queue>, network: Queue, send: Queue, flags: set<nat>)
    requires Filled(ws, disk, network, send, flags)
    ensures Ready(ws, disk, network, send, flags)
  {
    hide All, FlagsRight, Lengths, ToFetch, Own, AtPeers, HitsAt, Misses, Separate;
    FilledDistinct(ws, disk, network, send, flags);
  }

  /** The chunks of the send queue are requested in order. */
  method SendRequests(send: seq<Chunk>, isNetwork: set<nat>, localHosts: set<nat>) returns (requests: seq<Request>)
    ensures requests == Requests(send, isNetwork, localHosts) && Directed(requests, isNetwork, localHosts)
  {
    requests := [];
    for i := 0 to |send|
      invariant requests == Requests(send[..i], isNetwork, localHosts)
    {
      assert send[..i + 1][..i] == send[..i];
      requests := requests + [Request(send[i], WayOf(send[i], isNetwork, localHosts))];
    }
    assert send[..|send|] == send;
    AskedInOrder(send, isNetwork, localHosts);
  }

  /** The schedule is chosen for queues just filled. */
  method Schedule(load: Load, ghost ws: seq<Wanted>, disk1: seq<Queue>, network1: Queue, ghost send: Queue,
                  flags: set<nat>)
    returns (disk: seq<Queue>, network: Queue, isNetwork: set<nat>)
    requires load.Valid() && Filled(ws, disk1, network1, send, flags)
    ensures |disk| == |disk1| && Ready(ws, disk, network, send, isNetwork) && Balanced(disk, network)
  {
    hide All, FlagsRight, Lengths, ToFetch, Own, AtPeers, Misses, Moving, NetworkBounded, UpToDate, Moved;
    FilledDistinct(ws, disk1, network1, send, flags);
    var s := new Scheduler(load, disk1, network1, flags);
    var numMove, d0, n0, moved := s.FindBestSchedule();
    disk, network, isNetwork := s.disk, s.network, s.isNetwork;
    MovedFrom(load, ws, disk1, network1, d0, n0, flags, disk, network, isNetwork, moved);
  }

  lemma ReadySend(ws: seq<Wanted>, disk: seq<Queue>, network: Queue, send: Queue, flags: set<nat>)
    requires Ready(ws, disk, network, send, flags)
    ensures send.q == ToFetch(ws)
  {
  }

  lemma ReadyFollow(ws: seq<Wanted>, disk: seq<Queue>, network: Queue, send: Queue, flags: set<nat>,
                    localHosts: set<nat>)
    requires Ready(ws, disk, network, send, flags)
    ensures var rs := Requests(send.q, flags, localHosts);
            |rs| == |send.q| && Moved(ws, disk, network) && (Own(ws) ==> Follow(send.q, disk, network, rs))
  {
    hide All, FlagsRight, ToFetch, Own, AtPeers, Moved, Requests, Follow;
    AskedInOrder(send.q, flags, localHosts);
    if Own(ws) {
      RequestsFollow(send.q, disk, network, flags, localHosts);
    }
  }

  /** The chunk belongs to a ready block of an open connection and is not in memory. */
  ghost predicate AskedFor(conns: seq<Conn>, c: Chunk) {
    exists w: Wanted :: IsReady(conns, |conns|, w) && !w.inMemory && w.chunk == c
  }

  lemma AllAskedFor(conns: seq<Conn>, rs: seq<Request>, c: Chunk)
    requires forall i :: 0 <= i < |conns| ==> conns[i].ReadyHas()
    requires |rs| == |ToFetch(AllNames(conns, |conns|))|
    requires forall k :: 0 <= k < |rs| ==> rs[k].chunk == ToFetch(AllNames(conns, |conns|))[k]
    ensures (exists k :: 0 <= k < |rs| && rs[k].chunk == c) <==> AskedFor(conns, c)
  {
    hide AllNames, ToFetch, Misses, HitsAt, IsReady;
    var names := AllNames(conns, |conns|);
    FetchedExactly(names, c);
    if c in ToFetch(names) {
      var k :| 0 <= k < |names| && !names[k].inMemory && names[k].chunk == c;
      NamesGathered(conns, |conns|, names[k]);
      assert IsReady(conns, |conns|, names[k]);
      var j :| 0 <= j < |ToFetch(names)| && ToFetch(names)[j] == c;
      assert rs[j].chunk == c;
    }
    if AskedFor(conns, c) {
      var w: Wanted :| IsReady(conns, |conns|, w) && !w.inMemory && w.chunk == c;
      NamesGathered(conns, |conns|, w);
      assert w in names;
    }
  }

  class Shedder {
    var newPeekUpdate: bool
    var conns: seq<Conn>
    var disk: seq<Queue>
    var network: Queue
    var send: Queue
    /** The chunks whose isNetwork is set. */
    var isNetwork: set<nat>

    constructor (conns: seq<Conn>)
      ensures this.conns == conns && !newPeekUpdate && disk == [] && network == send == EMPTY && isNetwork == {}
    {
      this.conns, newPeekUpdate, disk, network, send, isNetwork := conns, false, [], EMPTY, EMPTY, {};
    }

    /** Schedule what became ready since the last round, and request it. */
    method IntelligentLoadShedding(load: Load, numPeers: nat, localHosts: set<nat>)
      returns (numChunksScheduled: nat, requests: seq<Request>)
      requires load.Valid() && forall i :: 0 <= i < |conns| ==> conns[i].ReadyHas() && ReadyOk(conns[i], numPeers)
      modifies this
      ensures !newPeekUpdate
      ensures !old(newPeekUpdate) ==> numChunksScheduled == 0 && requests == [] && unchanged(this)
      ensures old(newPeekUpdate) ==>
                && |conns| == |old(conns)| && |disk| == numPeers && numChunksScheduled == |requests|
                && forall i :: 0 <= i < |conns| ==>
                     conns[i] == if old(conns)[i].closed then old(conns)[i] else Scheduled(old(conns)[i])
      ensures old(newPeekUpdate) ==>
                var names := AllNames(old(conns), |old(conns)|);
                && requests == Requests(ToFetch(names), isNetwork, localHosts) && Moved(names, disk, network)
                && Directed(requests, isNetwork, localHosts)
                && (forall c :: (exists k :: 0 <= k < |requests| && requests[k].chunk == c)
                      <==> AskedFor(old(conns), c))
                && (Own(names) ==> Follow(ToFetch(names), disk, network, requests))
      ensures old(newPeekUpdate) && numChunksScheduled > 0 ==> Balanced(disk, network)
    {
      hide *;
      numChunksScheduled, requests := 0, [];
      if !newPeekUpdate {
        return;
      }
      newPeekUpdate := false;
      ghost var names := AllNames(conns, |conns|);
      conns, disk, network, send, isNetwork, numChunksScheduled := PopulateILSQueue(conns, numPeers, isNetwork);
      FilledReady(names, disk, network, send, isNetwork);
      if numChunksScheduled > 0 {
        disk, network, isNetwork := Schedule(load, names, disk, network, send, isNetwork);
      }
      ReadyFollow(names, disk, network, send, isNetwork, localHosts);
      ReadySend(names, disk, network, send, isNetwork);
      requests := SendRequests(send.q, isNetwork, localHosts);
      AskedInOrder(send.q, isNetwork, localHosts);
      forall c ensures (exists k :: 0 <= k < |requests| && requests[k].chunk == c) <==> AskedFor(old(conns), c) {
        AllAskedFor(old(conns), requests, c);
      }
    }
  }
}
