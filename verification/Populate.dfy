/**
 Which blocks are ready to be fetched, and how their chunks get into the scheduler's queues
 (waprox/waprox.c, waprox/reassemble.c, waprox/ils.c).
 */
module Populate {
  import opened Ils

  // ---------------------------------------------------------------- filling the queues

  /** A chunk of a block: whether it is expected on the disk of its peer, whether it is in memory already. */
  datatype Wanted = Wanted(chunk: Chunk, isHit: bool, inMemory: bool)

  /** ILSEnqueue. */
  function Enqueue(queue: Queue, c: Chunk, overhead: nat): Queue {
    queue.(q := queue.q + [c], totBytes := queue.totBytes + c.length + overhead)
  }

  const EMPTY := Queue([], 0, 0.0)

  /** The chunks that are not in memory, in order. */
  function ToFetch(ws: seq<Wanted>): seq<Chunk> {
    if ws == [] then []
    else ToFetch(ws[..|ws| - 1]) + if ws[|ws| - 1].inMemory then [] else [ws[|ws| - 1].chunk]
  }

  /** Those of them that no disk is expected to have. */
  function Misses(ws: seq<Wanted>): seq<Chunk> {
    if ws == [] then []
    else Misses(ws[..|ws| - 1]) + if ws[|ws| - 1].inMemory || ws[|ws| - 1].isHit then [] else [ws[|ws| - 1].chunk]
  }

  /** Those of them that are expected on the disk of peer p. */
  function HitsAt(ws: seq<Wanted>, p: nat): seq<Chunk> {
    if ws == [] then []
    else
      var w := ws[|ws| - 1];
      HitsAt(ws[..|ws| - 1], p) + if !w.inMemory && w.isHit && w.chunk.peerIdx == p then [w.chunk] else []
  }

  /** Fetched are the chunks not in memory. */
  lemma {:induction false} FetchedExactly(ws: seq<Wanted>, c: Chunk)
    ensures c in ToFetch(ws) <==> exists k :: 0 <= k < |ws| && !ws[k].inMemory && ws[k].chunk == c
  {
    if ws != [] {
      FetchedExactly(ws[..|ws| - 1], c);
      assert ws == ws[..|ws| - 1] + [ws[|ws| - 1]];
    }
  }

  /** Of these the network fetches those that no disk is expected to have. */
  lemma {:induction false} MissesExactly(ws: seq<Wanted>, c: Chunk)
    ensures c in Misses(ws) <==> exists k :: 0 <= k < |ws| && !ws[k].inMemory && !ws[k].isHit && ws[k].chunk == c
  {
    if ws != [] {
      MissesExactly(ws[..|ws| - 1], c);
      assert ws == ws[..|ws| - 1] + [ws[|ws| - 1]];
    }
  }

  /** And the disk of each peer those that are expected there. */
  lemma {:induction false} HitsExactly(ws: seq<Wanted>, c: Chunk, p: nat)
    ensures c in HitsAt(ws, p)
            <==> c.peerIdx == p
                 && exists k :: 0 <= k < |ws| && !ws[k].inMemory && ws[k].isHit && ws[k].chunk == c
  {
    if ws != [] {
      HitsExactly(ws[..|ws| - 1], c, p);
      assert ws == ws[..|ws| - 1] + [ws[|ws| - 1]];
    }
  }

  /** The disk queues hold the hits of their peers, in order. */
  ghost predicate HitsFilled(ws: seq<Wanted>, disk: seq<Queue>) {
    forall i :: 0 <= i < |disk| ==> disk[i].q == HitsAt(ws, i)
  }

  /**
   The queues filled so far hold what is to be fetched, the hits of each peer in its disk queue and the
   misses in the network queue, each chunk once, flagged by its queue.
   */
  ghost predicate Filled(ws: seq<Wanted>, disk: seq<Queue>, network: Queue, send: Queue, flags: set<nat>) {
    && send.q == ToFetch(ws) && network.q == Misses(ws) && HitsFilled(ws, disk)
    && All(disk, network) == multiset(send.q)
    && (forall i :: 0 <= i < |disk| ==> disk[i].totBytes == Lengths(disk[i].q))
    && network.totBytes == Lengths(network.q) + OVERHEAD * |network.q| && send.totBytes == Lengths(send.q)
    && (Separate(multiset(send.q)) ==> FlagsRight(disk, network, flags))
  }

  lemma LengthsAppend(s: seq<Chunk>, c: Chunk)
    ensures Lengths(s + [c]) == Lengths(s) + c.length
  {
    assert (s + [c])[..|s|] == s;
  }

  lemma SeparatePart(ms: multiset<Chunk>, c: Chunk)
    requires Separate(ms + multiset{c})
    ensures Separate(ms) && forall d :: d in ms ==> d.id != c.id
  {
    forall d | d in ms ensures ms[d] == 1 && d.id != c.id {
      assert d in ms + multiset{c} && (ms + multiset{c})[d] == 1;
    }
  }

  lemma ListsMore(ws: seq<Wanted>, w: Wanted, p: nat)
    ensures ToFetch(ws + [w]) == ToFetch(ws) + if w.inMemory then [] else [w.chunk]
    ensures Misses(ws + [w]) == Misses(ws) + if w.inMemory || w.isHit then [] else [w.chunk]
    ensures HitsAt(ws + [w], p) ==
            HitsAt(ws, p) + if !w.inMemory && w.isHit && w.chunk.peerIdx == p then [w.chunk] else []
  {
    assert (ws + [w])[..|ws|] == ws;
  }

  lemma HitsMore(ws: seq<Wanted>, w: Wanted, disk: seq<Queue>)
    requires HitsFilled(ws, disk) && !w.inMemory && w.isHit && w.chunk.peerIdx < |disk|
    ensures HitsFilled(ws + [w], disk[w.chunk.peerIdx := Enqueue(disk[w.chunk.peerIdx], w.chunk, 0)])
  {
    hide HitsAt, ToFetch, Misses;
    forall i | 0 <= i < |disk|
      ensures HitsAt(ws + [w], i) == disk[i].q + if i == w.chunk.peerIdx then [w.chunk] else []
    {
      ListsMore(ws, w, i);
    }
  }

  lemma HitsSame(ws: seq<Wanted>, w: Wanted, disk: seq<Queue>)
    requires HitsFilled(ws, disk) && (w.inMemory || !w.isHit)
    ensures HitsFilled(ws + [w], disk)
  {
    hide HitsAt, ToFetch, Misses;
    forall i | 0 <= i < |disk| ensures HitsAt(ws + [w], i) == disk[i].q {
      ListsMore(ws, w, i);
    }
  }

  /** An expected hit that is not in memory has been put on the disk queue of its peer. */
  lemma FilledDisk(ws: seq<Wanted>, w: Wanted, disk: seq<Queue>, network: Queue, send: Queue, flags: set<nat>)
    requires Filled(ws, disk, network, send, flags) && !w.inMemory && w.isHit && w.chunk.peerIdx < |disk|
    ensures Filled(ws + [w], disk[w.chunk.peerIdx := Enqueue(disk[w.chunk.peerIdx], w.chunk, 0)], network,
                   Enqueue(send, w.chunk, 0), flags - {w.chunk.id})
  {
    hide Lengths, All, Separate, FlagsRight, HitsFilled, ToFetch, Misses;
    var c := w.chunk;
    ListsMore(ws, w, 0);
    HitsMore(ws, w, disk);
    LengthsAppend(send.q, c);
    LengthsAppend(disk[w.chunk.peerIdx].q, c);
    DiskGains(disk, network, send, w.chunk.peerIdx, c);
    if Separate(multiset(send.q + [c])) {
      SeparatePart(multiset(send.q), c);
      DiskFlags(disk, network, send, flags, w.chunk.peerIdx, c);
    }
  }

  lemma DiskGains(disk: seq<Queue>, network: Queue, send: Queue, p: nat, c: Chunk)
    requires p < |disk| && All(disk, network) == multiset(send.q)
    ensures All(disk[p := Enqueue(disk[p], c, 0)], network) == multiset(send.q + [c])
  {
    hide AllDisk;
    AllDiskTake(disk[p := Enqueue(disk[p], c, 0)], disk, p, c, |disk|);
  }

  lemma DiskFlags(disk: seq<Queue>, network: Queue, send: Queue, flags: set<nat>, p: nat, c: Chunk)
    requires FlagsRight(disk, network, flags) && p < |disk| && All(disk, network) == multiset(send.q)
    requires forall d :: d in multiset(send.q) ==> d.id != c.id
    ensures FlagsRight(disk[p := Enqueue(disk[p], c, 0)], network, flags - {c.id})
  {
    hide AllDisk, FlagsRight;
    forall k | 0 <= k < |network.q| ensures network.q[k].id != c.id {
      assert network.q[k] in All(disk, network);
    }
    FlagsDisk(disk, network, flags, p, c);
  }

  lemma FlagsDisk(disk: seq<Queue>, network: Queue, flags: set<nat>, p: nat, c: Chunk)
    requires FlagsRight(disk, network, flags) && p < |disk| && forall k :: 0 <= k < |network.q| ==>
               network.q[k].id != c.id
    ensures FlagsRight(disk[p := Enqueue(disk[p], c, 0)], network, flags - {c.id})
  {
  }

  lemma FlagsNetwork(disk: seq<Queue>, network: Queue, flags: set<nat>, c: Chunk)
    requires FlagsRight(disk, network, flags)
    requires forall i, k :: 0 <= i < |disk| && 0 <= k < |disk[i].q| ==> disk[i].q[k].id != c.id
    ensures FlagsRight(disk, Enqueue(network, c, OVERHEAD), flags + {c.id})
  {
  }

  /** A miss that is not in memory has been put on the network queue. */
  lemma FilledNetwork(ws: seq<Wanted>, w: Wanted, disk: seq<Queue>, network: Queue, send: Queue, flags: set<nat>)
    requires Filled(ws, disk, network, send, flags) && !w.inMemory && !w.isHit
    ensures Filled(ws + [w], disk, Enqueue(network, w.chunk, OVERHEAD), Enqueue(send, w.chunk, 0), flags + {w.chunk.id})
  {
    hide Lengths, AllDisk, Separate, FlagsRight, HitsFilled, ToFetch, Misses;
    var c := w.chunk;
    ListsMore(ws, w, 0);
    HitsSame(ws, w, disk);
    LengthsAppend(send.q, c);
    LengthsAppend(network.q, c);
    if Separate(multiset(send.q + [c])) {
      SeparatePart(multiset(send.q), c);
      forall i, k | 0 <= i < |disk| && 0 <= k < |disk[i].q| ensures disk[i].q[k].id != c.id {
        InAllDisk(disk, i, k, |disk|);
        assert disk[i].q[k] in All(disk, network);
      }
      FlagsNetwork(disk, network, flags, c);
    }
  }

  lemma FilledMemory(ws: seq<Wanted>, w: Wanted, disk: seq<Queue>, network: Queue, send: Queue, flags: set<nat>)
    requires Filled(ws, disk, network, send, flags) && w.inMemory
    ensures Filled(ws + [w], disk, network, send, flags)
  {
    hide All, Separate, FlagsRight, HitsFilled, ToFetch, Misses;
    ListsMore(ws, w, 0);
    HitsSame(ws, w, disk);
  }

  lemma FilledStart(disk: seq<Queue>, flags: set<nat>)
    requires forall i :: 0 <= i < |disk| ==> disk[i] == EMPTY
    ensures Filled([], disk, EMPTY, EMPTY, flags)
  {
    NothingWaits(disk, |disk|);
  }

  lemma {:induction false} NothingWaits(disk: seq<Queue>, n: nat)
    requires n <= |disk| && forall i :: 0 <= i < |disk| ==> disk[i] == EMPTY
    ensures AllDisk(disk, n) == multiset{}
  {
    if n > 0 {
      NothingWaits(disk, n - 1);
    }
  }

  // ---------------------------------------------------------------- lists of names

  /**
   ReassembleInfo: the chunks of a block, how many of them are resolved, whether they were scheduled.
   As history, lastLocal tells whether the last answer came from the local disk cache.
   */
  datatype Reassembly = Reassembly(names: seq<Wanted>, numPeekResolved: nat, getSent: bool, lastLocal: bool) {
    predicate Resolved() { numPeekResolved == |names| }

    /** Resolved and not scheduled. */
    predicate Waiting() { Resolved() && !getSent }
  }

  /** The lists of a connection by sequence number, first to seqNo - 1, and the ones ready to be scheduled. */
  datatype Conn = Conn(closed: bool, first: nat, lists: seq<Reassembly>, ready: seq<nat>) {
    function SeqNo(): nat { first + |lists| }

    predicate Has(id: nat) { first <= id < SeqNo() }

    function Get(id: nat): Reassembly
      requires Has(id)
    {
      lists[id - first]
    }

    ghost predicate ReadyHas() {
      forall k :: 0 <= k < |ready| ==> Has(ready[k])
    }

    /**
     Ready are exactly the lists resolved, not scheduled and not resolved by a local answer, each once;
     only resolved lists are scheduled.
     */
    ghost predicate Tidy() {
      && (forall id :: Has(id) ==> (id in ready <==> Get(id).Waiting() && !Get(id).lastLocal))
      && (forall id :: Has(id) ==>
            Get(id).numPeekResolved <= |Get(id).names| && (Get(id).getSent ==> Get(id).Resolved()))
      && ReadyHas() && NoRepeat(ready)
    }
  }

  ghost predicate NoRepeat(s: seq<nat>) {
    forall j, k :: 0 <= j < k < |s| ==> s[j] != s[k]
  }

  /** CheckPeek, for a list just delivered or a name just resolved. */
  function CheckPeek(c: Conn, id: nat): Conn
    requires c.Has(id)
  {
    if c.Get(id).Resolved() then c.(ready := c.ready + [id]) else c
  }

  /** A list of names arrives, some of them resolved on the spot (all of them without peeking). */
  function Deliver(c: Conn, names: seq<Wanted>, resolved: nat): Conn {
    CheckPeek(c.(lists := c.lists + [Reassembly(names, resolved, false, false)]), c.SeqNo())
  }

  /** UpdatePeekResult: one more name of a list is resolved. */
  function Answered(r: Reassembly, name: nat, isHit: bool, local: bool): Reassembly
    requires name < |r.names|
  {
    r.(names := r.names[name := r.names[name].(isHit := isHit)], numPeekResolved := r.numPeekResolved + 1,
       lastLocal := local)
  }

  /** The answer for a name; for that of the local disk cache nobody looks whether the list is complete now. */
  function Answer(c: Conn, id: nat, name: nat, isHit: bool, local: bool): Conn
    requires c.Has(id) && name < |c.Get(id).names|
  {
    var d := c.(lists := c.lists[id - c.first := Answered(c.Get(id), name, isHit, local)]);
    if local then d else CheckPeek(d, id)
  }

  /** The ready lists are marked as scheduled. */
  function Scheduled(c: Conn): Conn {
    c.(lists := Marked(c.lists, c.first, c.ready), ready := [])
  }

  function Marked(lists: seq<Reassembly>, first: nat, ids: seq<nat>): (r: seq<Reassembly>)
    ensures |r| == |lists|
    ensures forall i :: 0 <= i < |r| ==> r[i] == if first + i in ids then lists[i].(getSent := true) else lists[i]
  {
    seq(|lists|, i requires 0 <= i < |lists| => if first + i in ids then lists[i].(getSent := true) else lists[i])
  }

  /** The first list has been rebuilt and is destroyed; ReconstructOneChunkTree refuses one not scheduled. */
  function Destroy(c: Conn): Conn
    requires c.lists != [] && c.lists[0].getSent
  {
    c.(first := c.first + 1, lists := c.lists[1..])
  }

  // ---------------------------------------------------------------- runs

  datatype Event =
    | Delivered(names: seq<Wanted>, resolved: nat)
    | Answers(id: nat, name: nat, isHit: bool, local: bool)
    | Populated
    | Rebuilt
    | Closes

  predicate Possible(c: Conn, ev: Event) {
    match ev
    case Delivered(names, resolved) => resolved <= |names|
    case Answers(id, name, _, _) => c.Has(id) && !c.Get(id).Resolved() && name < |c.Get(id).names|
    case Populated => !c.closed
    case Rebuilt => c.lists != [] && c.lists[0].getSent
    case Closes => true
  }

  function After(c: Conn, ev: Event): Conn
    requires Possible(c, ev)
  {
    match ev
    case Delivered(names, resolved) => Deliver(c, names, resolved)
    case Answers(id, name, isHit, local) => Answer(c, id, name, isHit, local)
    case Populated => Scheduled(c)
    case Rebuilt => Destroy(c)
    case Closes => c.(closed := true)
  }

  predicate Run(c: Conn, evs: seq<Event>)
    decreases |evs|
  {
    evs == [] || (Possible(c, evs[0]) && Run(After(c, evs[0]), evs[1..]))
  }

  function Last(c: Conn, evs: seq<Event>): Conn
    requires Run(c, evs)
    decreases |evs|
  {
    if evs == [] then c else Last(After(c, evs[0]), evs[1..])
  }

  /** The lists scheduled in a run, by sequence number. */
  function History(c: Conn, evs: seq<Event>): seq<nat>
    requires Run(c, evs)
    decreases |evs|
  {
    if evs == [] then []
    else (if evs[0] == Populated then c.ready else []) + History(After(c, evs[0]), evs[1..])
  }

  /** Scheduled so far are, each once, the lists already destroyed and those marked. */
  ghost predicate Once(c: Conn, done: seq<nat>) {
    && c.Tidy() && NoRepeat(done)
    && (forall id: nat :: id in done <==> id < c.first || (c.Has(id) && c.Get(id).getSent))
  }

  lemma OnceStep(c: Conn, done: seq<nat>, ev: Event)
    requires Once(c, done) && Possible(c, ev)
    ensures Once(After(c, ev), done + if ev == Populated then c.ready else [])
  {
    hide Once, Conn.Tidy, Deliver, Answer, Scheduled, Destroy;
    assert done + [] == done;
    match ev
    case Delivered(names, resolved) => DeliverOnce(c, done, names, resolved);
    case Answers(id, name, isHit, local) => AnswerOnce(c, done, id, name, isHit, local);
    case Populated => ScheduledOnce(c, done);
    case Rebuilt => DestroyOnce(c, done);
    case Closes => CloseOnce(c, done);
  }

  lemma DeliverOnce(c: Conn, done: seq<nat>, names: seq<Wanted>, resolved: nat)
    requires Once(c, done) && resolved <= |names|
    ensures Once(Deliver(c, names, resolved), done)
  {
    hide Conn.Tidy, Deliver, NoRepeat;
    DeliverTidy(c, names, resolved);
  }

  lemma AnswerOnce(c: Conn, done: seq<nat>, id: nat, name: nat, isHit: bool, local: bool)
    requires Once(c, done) && Possible(c, Answers(id, name, isHit, local))
    ensures Once(Answer(c, id, name, isHit, local), done)
  {
    hide Conn.Tidy, Answer, NoRepeat;
    AnswerTidy(c, id, name, isHit, local);
  }

  lemma DestroyOnce(c: Conn, done: seq<nat>)
    requires Once(c, done) && c.lists != [] && c.lists[0].getSent
    ensures Once(Destroy(c), done)
  {
    hide Conn.Tidy, Destroy, NoRepeat;
    DestroyTidy(c);
    assert c.Has(c.first) && c.Get(c.first).getSent;
  }

  lemma CloseOnce(c: Conn, done: seq<nat>)
    requires Once(c, done)
    ensures Once(c.(closed := true), done)
  {
    var d := c.(closed := true);
    assert forall id :: d.Has(id) ==> d.Get(id) == c.Get(id);
  }

  lemma DeliverTidy(c: Conn, names: seq<Wanted>, resolved: nat)
    requires c.Tidy() && resolved <= |names|
    ensures var d := Deliver(c, names, resolved);
            && d.Tidy() && d.first == c.first && d.SeqNo() == c.SeqNo() + 1 && !d.Get(c.SeqNo()).getSent
            && forall id :: c.Has(id) ==> d.Get(id) == c.Get(id)
  {
    var d := Deliver(c, names, resolved);
    forall id | d.Has(id)
      ensures d.Get(id) == if c.Has(id) then c.Get(id) else Reassembly(names, resolved, false, false)
    {
    }
  }

  lemma AnswerTidy(c: Conn, id: nat, name: nat, isHit: bool, local: bool)
    requires c.Tidy() && Possible(c, Answers(id, name, isHit, local))
    ensures var d := Answer(c, id, name, isHit, local);
            && d.Tidy() && d.first == c.first && d.SeqNo() == c.SeqNo()
            && forall x :: c.Has(x) ==>
                 d.Get(x) == if x == id then Answered(c.Get(id), name, isHit, local) else c.Get(x)
  {
    AnswerGet(c, id, name, isHit, local);
    hide Answer;
    ReadyIsUnsent(c);
    var d := Answer(c, id, name, isHit, local);
    forall x | d.Has(x) ensures x in d.ready <==> x in c.ready || (x == id && d.Get(x).Waiting() && !local) {
    }
  }

  lemma AnswerGet(c: Conn, id: nat, name: nat, isHit: bool, local: bool)
    requires c.Has(id) && name < |c.Get(id).names|
    ensures var d := Answer(c, id, name, isHit, local); var r := Answered(c.Get(id), name, isHit, local);
            && d.first == c.first && d.SeqNo() == c.SeqNo()
            && d.ready == c.ready + (if !local && r.Resolved() then [id] else [])
            && forall x :: c.Has(x) ==> d.Get(x) == if x == id then r else c.Get(x)
  {
    assert c.ready + [] == c.ready;
    forall x | c.Has(x) && x != id ensures Answer(c, id, name, isHit, local).Get(x) == c.Get(x) {
    }
  }

  lemma ScheduledOnce(c: Conn, done: seq<nat>)
    requires Once(c, done)
    ensures Once(Scheduled(c), done + c.ready)
  {
    hide Scheduled, Conn.Tidy;
    var d := Scheduled(c);
    ScheduledTidy(c);
    ReadyIsUnsent(c);
    forall j, k | 0 <= j < |done| && 0 <= k < |c.ready| ensures done[j] != c.ready[k] {
      assert done[j] in done && c.ready[k] in c.ready;
    }
    forall id: nat ensures id in done + c.ready <==> id < c.first || (d.Has(id) && d.Get(id).getSent) {
      assert id in done + c.ready <==> id in done || id in c.ready;
    }
  }

  lemma ReadyIsUnsent(c: Conn)
    requires c.Tidy()
    ensures NoRepeat(c.ready) && forall id :: id in c.ready ==> c.Has(id) && !c.Get(id).getSent && c.Get(id).Resolved()
  {
  }

  lemma ScheduledTidy(c: Conn)
    requires c.Tidy()
    ensures var d := Scheduled(c);
            && d.Tidy() && d.first == c.first && d.SeqNo() == c.SeqNo()
            && forall id :: c.Has(id) ==> d.Get(id).getSent == (id in c.ready || c.Get(id).getSent)
  {
    hide Scheduled;
    var d := Scheduled(c);
    ScheduledGet(c);
    forall id: nat | c.Has(id)
      ensures d.Get(id) == (if id in c.ready then c.Get(id).(getSent := true) else c.Get(id))
      ensures id !in d.ready && d.Get(id).numPeekResolved <= |d.Get(id).names|
      ensures d.Get(id).getSent ==> d.Get(id).Resolved()
      ensures d.Get(id).Waiting() ==> d.Get(id).lastLocal
    {
    }
  }

  lemma ScheduledGet(c: Conn)
    ensures var d := Scheduled(c);
            && d.ready == [] && d.first == c.first && d.SeqNo() == c.SeqNo()
            && forall id :: c.Has(id) ==> d.Get(id) == if id in c.ready then c.Get(id).(getSent := true) else c.Get(id)
  {
    hide Marked;
    var m := Marked(c.lists, c.first, c.ready);
    forall id: nat | c.Has(id)
      ensures m[id - c.first] == if id in c.ready then c.Get(id).(getSent := true) else c.Get(id)
    {
      MarkedAt(c.lists, c.first, c.ready, id - c.first);
    }
  }

  lemma MarkedAt(lists: seq<Reassembly>, first: nat, ids: seq<nat>, i: nat)
    requires i < |lists|
    ensures |Marked(lists, first, ids)| == |lists|
    ensures Marked(lists, first, ids)[i] == if first + i in ids then lists[i].(getSent := true) else lists[i]
  {
  }

  lemma DestroyTidy(c: Conn)
    requires c.Tidy() && c.lists != [] && c.lists[0].getSent
    ensures var d := Destroy(c);
            && d.Tidy() && d.first == c.first + 1 && d.SeqNo() == c.SeqNo()
            && forall id :: d.Has(id) ==> d.Get(id) == c.Get(id)
  {
    var d := Destroy(c);
    assert c.Has(c.first) && c.Get(c.first).getSent;
    forall k | 0 <= k < |d.ready| ensures d.Has(d.ready[k]) {
      assert c.ready[k] in c.ready;
    }
  }

  const NEW := Conn(false, 0, [], [])

  /**
   Whatever happens to a connection, no list is scheduled twice, every list rebuilt and destroyed was
   scheduled, and the ready list never names a destroyed one: it holds exactly the lists that wait to be
   scheduled and whose last answer was not local.
   */
  lemma ScheduledAtMostOnce(evs: seq<Event>)
    requires Run(NEW, evs)
    ensures Once(Last(NEW, evs), History(NEW, evs))
  {
    OnceRun(NEW, [], evs);
    assert [] + History(NEW, evs) == History(NEW, evs);
  }

  lemma {:induction false} OnceRun(c: Conn, done: seq<nat>, evs: seq<Event>)
    requires Once(c, done) && Run(c, evs)
    ensures Once(Last(c, evs), done + History(c, evs))
    decreases |evs|
  {
    hide Once, After, Possible;
    if evs == [] {
      assert done + [] == done;
    } else {
      OnceStep(c, done, evs[0]);
      var now := if evs[0] == Populated then c.ready else [];
      OnceRun(After(c, evs[0]), done + now, evs[1..]);
      assert done + now + History(After(c, evs[0]), evs[1..]) == done + (now + History(After(c, evs[0]), evs[1..]));
    }
  }

  // ---------------------------------------------------------------- lists that are never scheduled

  /** Every list that waits to be scheduled is on the ready list. */
  ghost predicate NoneMissed(c: Conn) {
    forall id :: c.Has(id) && c.Get(id).Waiting() ==> id in c.ready
  }

  /** The answer of the local disk cache is harmless exactly when it is not the last one. */
  lemma LocalAnswerMisses(c: Conn, id: nat, name: nat, isHit: bool)
    requires c.Tidy() && NoneMissed(c) && Possible(c, Answers(id, name, isHit, true))
    ensures NoneMissed(Answer(c, id, name, isHit, true)) <==> c.Get(id).numPeekResolved + 1 < |c.Get(id).names|
  {
    AnswerTidy(c, id, name, isHit, true);
    hide Answer;
    var d := Answer(c, id, name, isHit, true);
    assert d.Has(id) && d.Get(id) == Answered(c.Get(id), name, isHit, true);
    if c.Get(id).numPeekResolved + 1 < |c.Get(id).names| {
      forall x | d.Has(x) && d.Get(x).Waiting() ensures x in d.ready {
        assert c.Has(x) && x != id && !c.Get(x).lastLocal;
      }
    }
  }

  /** Without answers of the local disk cache nothing is missed. */
  lemma {:induction false} NothingMissed(c: Conn, done: seq<nat>, evs: seq<Event>)
    requires Once(c, done) && Run(c, evs) && (forall id :: c.Has(id) ==> !c.Get(id).lastLocal)
    requires forall k :: 0 <= k < |evs| ==> evs[k].Answers? ==> !evs[k].local
    ensures NoneMissed(Last(c, evs))
    decreases |evs|
  {
    hide After, Possible, Conn.Tidy;
    if evs == [] {
      WaitingReady(c);
    } else {
      OnceStep(c, done, evs[0]);
      RemoteStays(c, evs[0]);
      NothingMissed(After(c, evs[0]), done + if evs[0] == Populated then c.ready else [], evs[1..]);
    }
  }

  lemma WaitingReady(c: Conn)
    requires c.Tidy() && forall id :: c.Has(id) ==> !c.Get(id).lastLocal
    ensures NoneMissed(c)
  {
  }

  lemma RemoteStays(c: Conn, ev: Event)
    requires Possible(c, ev) && (ev.Answers? ==> !ev.local) && forall id :: c.Has(id) ==> !c.Get(id).lastLocal
    ensures forall id :: After(c, ev).Has(id) ==> !After(c, ev).Get(id).lastLocal
  {
    hide Answer, Scheduled;
    var d := After(c, ev);
    match ev
    case Answers(id, name, isHit, local) => AnswerGet(c, id, name, isHit, local);
    case Populated => ScheduledGet(c);
    case Delivered(names, resolved) =>
      assert forall id :: d.Has(id) ==>
          d.Get(id) == if c.Has(id) then c.Get(id) else Reassembly(names, resolved, false, false);
    case _ =>
      assert forall id :: d.Has(id) ==> c.Has(id) && d.Get(id) == c.Get(id);
  }

  /** In the build without peeks, and when the cache is in memory, the ready list misses nothing. */
  lemma ReadyExactly(evs: seq<Event>)
    requires Run(NEW, evs) && forall k :: 0 <= k < |evs| ==> evs[k].Answers? ==> !evs[k].local
    ensures var c := Last(NEW, evs); forall id :: c.Has(id) ==> (id in c.ready <==> c.Get(id).Waiting())
  {
    hide Run, Last;
    NothingMissed(NEW, [], evs);
    ScheduledAtMostOnce(evs);
  }

  /** A list that waits because its last answer was local. */
  predicate Missed(c: Conn, id: nat) {
    c.Has(id) && c.Get(id).Waiting() && c.Get(id).lastLocal
  }

  lemma MissedStep(c: Conn, done: seq<nat>, id: nat, ev: Event)
    requires Once(c, done) && Missed(c, id) && Possible(c, ev)
    ensures Missed(After(c, ev), id) && (ev == Populated ==> id !in c.ready)
  {
    hide Answer, Scheduled, NoRepeat;
    match ev
    case Answers(x, name, isHit, local) => AnswerGet(c, x, name, isHit, local);
    case Populated => ScheduledGet(c);
    case _ =>
  }

  /** It is never scheduled; so neither it nor any list behind it is ever rebuilt. */
  lemma {:induction false} MissedForGood(c: Conn, done: seq<nat>, id: nat, evs: seq<Event>)
    requires Once(c, done) && Missed(c, id) && Run(c, evs)
    ensures Missed(Last(c, evs), id) && id !in History(c, evs) && Last(c, evs).first <= id
    decreases |evs|
  {
    hide After, Possible, Once;
    if evs != [] {
      OnceStep(c, done, evs[0]);
      MissedStep(c, done, id, evs[0]);
      MissedForGood(After(c, evs[0]), done + if evs[0] == Populated then c.ready else [], id, evs[1..]);
    }
  }

  /** Such a list can be reached: one name, resolved by the local disk cache. */
  lemma MissedReached(w: Wanted, isHit: bool)
    ensures var evs := [Delivered([w], 0), Answers(0, 0, isHit, true)];
            Run(NEW, evs) && Missed(Last(NEW, evs), 0) && Scheduled(Last(NEW, evs)) == Last(NEW, evs)
  {
    var evs := [Delivered([w], 0), Answers(0, 0, isHit, true)];
    var c := After(NEW, evs[0]);
    assert c == Conn(false, 0, [Reassembly([w], 0, false, false)], []);
    var d := After(c, evs[1]);
    assert evs[1..] == [evs[1]] && evs[1..][1..] == [];
    assert Run(d, []) && Last(d, []) == d;
    assert d.lists == [Answered(c.lists[0], 0, isHit, true)] && d.ready == [];
    assert Scheduled(d).lists == d.lists;
  }

  // ---------------------------------------------------------------- the walk over the connections

  /** The names of the first n lists to be scheduled. */
  ghost function ReadyNames(c: Conn, n: nat): seq<Wanted>
    requires n <= |c.ready| && c.ReadyHas()
  {
    if n == 0 then [] else ReadyNames(c, n - 1) + c.Get(c.ready[n - 1]).names
  }

  /** The lists of the connection are in order and their peers known. */
  ghost predicate ReadyOk(c: Conn, numPeers: nat) {
    c.Tidy() && c.ReadyHas() && forall id :: c.Has(id) ==> PeersKnown(c.Get(id).names, numPeers)
  }

  predicate PeersKnown(ws: seq<Wanted>, numPeers: nat) {
    forall k :: 0 <= k < |ws| ==> ws[k].chunk.peerIdx < numPeers
  }

  /** The names to be scheduled from the first n connections; a closed one is passed over. */
  ghost function AllNames(conns: seq<Conn>, n: nat): seq<Wanted>
    requires n <= |conns| && forall i :: 0 <= i < n ==> conns[i].ReadyHas()
  {
    if n == 0 then []
    else AllNames(conns, n - 1) + if conns[n - 1].closed then [] else ReadyNames(conns[n - 1], |conns[n - 1].ready|)
  }

  /** A name of a ready list of an open connection. */
  ghost predicate IsReady(conns: seq<Conn>, n: nat, w: Wanted)
    requires n <= |conns|
  {
    exists i, k :: 0 <= i < n && !conns[i].closed && ReadyAt(conns[i], k, w)
  }

  ghost predicate ReadyAt(c: Conn, k: nat, w: Wanted) {
    k < |c.ready| && c.Has(c.ready[k]) && w in c.Get(c.ready[k]).names
  }

  lemma {:induction false} ReadyNamesAre(c: Conn, n: nat, w: Wanted)
    requires n <= |c.ready| && c.ReadyHas()
    ensures w in ReadyNames(c, n) <==> exists k :: 0 <= k < n && ReadyAt(c, k, w)
  {
    if n > 0 {
      ReadyNamesAre(c, n - 1, w);
      assert w in c.Get(c.ready[n - 1]).names <==> ReadyAt(c, n - 1, w);
    }
  }

  /** Gathered are exactly the names of the ready lists of the open connections. */
  lemma {:induction false} NamesGathered(conns: seq<Conn>, n: nat, w: Wanted)
    requires n <= |conns| && forall i :: 0 <= i < n ==> conns[i].ReadyHas()
    ensures w in AllNames(conns, n) <==> IsReady(conns, n, w)
  {
    if n > 0 {
      NamesGathered(conns, n - 1, w);
      var c := conns[n - 1];
      ReadyNamesAre(c, |c.ready|, w);
      if IsReady(conns, n, w) {
        var i, k :| 0 <= i < n && !conns[i].closed && ReadyAt(conns[i], k, w);
        assert i < n - 1 ==> IsReady(conns, n - 1, w);
      }
      if IsReady(conns, n - 1, w) {
        var i, k :| 0 <= i < n - 1 && !conns[i].closed && ReadyAt(conns[i], k, w);
        assert IsReady(conns, n, w);
      }
      if !c.closed && w in ReadyNames(c, |c.ready|) {
        var k :| 0 <= k < |c.ready| && ReadyAt(c, k, w);
        assert IsReady(conns, n, w);
      }
    }
  }

  /** Put the chunks of one list on the queues: expected hits on the disk queue of their peer, misses on the network. */
  method EnqueueNames(names: seq<Wanted>, ghost ws: seq<Wanted>, disk0: seq<Queue>, network0: Queue, send0: Queue,
                      flags: set<nat>)
    returns (disk: seq<Queue>, network: Queue, send: Queue, isNetwork: set<nat>, numScheduled: nat)
    requires PeersKnown(names, |disk0|) && Filled(ws, disk0, network0, send0, flags)
    ensures |disk| == |disk0| && Filled(ws + names, disk, network, send, isNetwork)
    ensures |send.q| == |send0.q| + numScheduled
  {
    hide Filled, ToFetch;
    disk, network, send, isNetwork, numScheduled := disk0, network0, send0, flags, 0;
    assert ws + names[..0] == ws;
    for i := 0 to |names|
      invariant |disk| == |disk0| && Filled(ws + names[..i], disk, network, send, isNetwork)
      invariant |send.q| == |send0.q| + numScheduled
    {
      var w := names[i];
      assert ws + names[..i + 1] == ws + names[..i] + [w];
      if w.inMemory {
        FilledMemory(ws + names[..i], w, disk, network, send, isNetwork);
      } else {
        numScheduled := numScheduled + 1;
        if w.isHit {
          FilledDisk(ws + names[..i], w, disk, network, send, isNetwork);
          isNetwork := isNetwork - {w.chunk.id};
          disk := disk[w.chunk.peerIdx := Enqueue(disk[w.chunk.peerIdx], w.chunk, 0)];
        } else {
          FilledNetwork(ws + names[..i], w, disk, network, send, isNetwork);
          isNetwork := isNetwork + {w.chunk.id};
          network := Enqueue(network, w.chunk, OVERHEAD);
        }
        send := Enqueue(send, w.chunk, 0);
      }
    }
    assert names[..|names|] == names;
  }

  /** The lists of a connection with the first n ready ones marked. */
  function MarkedTo(c: Conn, n: nat): Conn
    requires n <= |c.ready|
  {
    c.(lists := Marked(c.lists, c.first, c.ready[..n]))
  }

  /** Marking one more list, which had not been scheduled. */
  lemma MarkNext(c: Conn, n: nat)
    requires c.Tidy() && n < |c.ready|
    ensures var d, id := MarkedTo(c, n), c.ready[n];
            && d.ready == c.ready && d.first == c.first && c.Has(id) && d.Has(id) && d.Get(id) == c.Get(id)
            && !d.Get(id).getSent && d.Get(id).Resolved()
            && d.(lists := d.lists[id - d.first := d.Get(id).(getSent := true)]) == MarkedTo(c, n + 1)
  {
    hide Conn.Tidy;
    ReadyIsUnsent(c);
    var d, id := MarkedTo(c, n), c.ready[n];
    assert id in c.ready && c.first + (id - c.first) == id;
    assert c.ready[..n + 1] == c.ready[..n] + [id];
    assert id !in c.ready[..n];
  }

  lemma MarkedEnds(c: Conn)
    ensures MarkedTo(c, 0) == c && MarkedTo(c, |c.ready|).(ready := []) == Scheduled(c)
  {
    assert c.ready[..|c.ready|] == c.ready;
    assert Marked(c.lists, c.first, []) == c.lists;
  }

  /** The ready lists of one connection: mark each and put its chunks on the queues.  The assertion is the source's. */
  method PopulateConn(c0: Conn, ghost ws: seq<Wanted>, disk0: seq<Queue>, network0: Queue, send0: Queue,
                      flags: set<nat>)
    returns (c: Conn, disk: seq<Queue>, network: Queue, send: Queue, isNetwork: set<nat>, numScheduled: nat)
    requires ReadyOk(c0, |disk0|) && Filled(ws, disk0, network0, send0, flags)
    ensures |disk| == |disk0| && c == Scheduled(c0) && |send.q| == |send0.q| + numScheduled
    ensures Filled(ws + ReadyNames(c0, |c0.ready|), disk, network, send, isNetwork)
  {
    hide Filled, ToFetch, Scheduled, MarkedTo, Conn.Tidy, PeersKnown, Marked, ReadyNames;
    c, disk, network, send, isNetwork, numScheduled := c0, disk0, network0, send0, flags, 0;
    MarkedEnds(c);
    ReadyNamesStart(c, ws);
    for k := 0 to |c.ready|
      invariant |disk| == |disk0| && Filled(ws + ReadyNames(c0, k), disk, network, send, isNetwork)
      invariant c == MarkedTo(c0, k) && |send.q| == |send0.q| + numScheduled
    {
      MarkNext(c0, k);
      ReadyNamesNext(c0, ws, k);
      var id := c.ready[k];
      var r := c.Get(id);
      assert r.Resolved() && !r.getSent;
      c := c.(lists := c.lists[id - c.first := r.(getSent := true)]);
      var n;
      disk, network, send, isNetwork, n := EnqueueNames(r.names, ws + ReadyNames(c0, k), disk, network, send,
                                                        isNetwork);
      numScheduled := numScheduled + n;
    }
    c := c.(ready := []);
  }

  lemma ReadyNamesStart(c: Conn, ws: seq<Wanted>)
    requires c.ReadyHas()
    ensures ws + ReadyNames(c, 0) == ws
  {
  }

  lemma ReadyNamesNext(c: Conn, ws: seq<Wanted>, k: nat)
    requires k < |c.ready| && c.ReadyHas()
    ensures ws + ReadyNames(c, k) + c.Get(c.ready[k]).names == ws + ReadyNames(c, k + 1)
  {
  }

  /** Distribute the chunks of all ready lists of open connections over the queues, and mark the lists. */
  method PopulateILSQueue(conns0: seq<Conn>, numPeers: nat, flags: set<nat>)
    returns (conns: seq<Conn>, disk: seq<Queue>, network: Queue, send: Queue, isNetwork: set<nat>,
             numChunksScheduled: nat)
    requires forall i :: 0 <= i < |conns0| ==> conns0[i].ReadyHas() && ReadyOk(conns0[i], numPeers)
    ensures |disk| == numPeers && Filled(AllNames(conns0, |conns0|), disk, network, send, isNetwork)
    ensures |conns| == |conns0| && numChunksScheduled == |send.q|
    ensures forall i :: 0 <= i < |conns| ==> conns[i] == if conns0[i].closed then conns0[i] else Scheduled(conns0[i])
  {
    hide Filled, ToFetch, Scheduled, Conn.Tidy, PeersKnown, ReadyNames;
    conns, disk, network, send, isNetwork := conns0, seq(numPeers, _ => EMPTY), EMPTY, EMPTY, flags;
    numChunksScheduled := 0;
    FilledStart(disk, flags);
    for i := 0 to |conns|
      invariant |conns| == |conns0| && |disk| == numPeers && Filled(AllNames(conns0, i), disk, network, send, isNetwork)
      invariant numChunksScheduled == |send.q| && forall k :: i <= k < |conns| ==> conns[k] == conns0[k]
      invariant forall k :: 0 <= k < i ==> conns[k] == if conns0[k].closed then conns0[k] else Scheduled(conns0[k])
    {
      if conns[i].closed {
        assert AllNames(conns0, i) + [] == AllNames(conns0, i);
      } else {
        var c, n;
        c, disk, network, send, isNetwork, n := PopulateConn(conns[i], AllNames(conns0, i), disk, network, send,
                                                             isNetwork);
        conns, numChunksScheduled := conns[i := c], numChunksScheduled + n;
      }
    }
  }
}
