/**
 The receiving half of a user connection: control messages, ReconstructOriginalData and Write
 (waprox/waprox.c, waprox/reassemble.c).
 */
module Incoming {
  import opened Bytes
  import opened Delivery
  import opened ChunkTable
  import opened Receiver
  import opened Described
  import opened Link
  import opened LinkSafety

  class PeerConn {
    var reassembleList: seq<seq<ChunkNameInfo>>
    var msgListWrite: seq<seq<Byte>>
    var firstMsgOffset: nat
    var lenWrite: int
    var bytesRX: nat
    var closeBytes: nat
    var pendingNames: int
    var pendingBytes: int
    var life: Life
    /** Acknowledgements queued and not yet on their way. */
    var controlMsgList: seq<nat>

    constructor ()
      ensures View() == Initial().rcv && controlMsgList == []
    {
      reassembleList, msgListWrite, firstMsgOffset, lenWrite := [], [], 0, 0;
      bytesRX, closeBytes, pendingNames, pendingBytes, life := 0, 0, 0, 0, Open;
      controlMsgList := [];
    }

    function View(): RecvSide
      reads this
    {
      RecvSide(reassembleList, msgListWrite, firstMsgOffset, lenWrite, bytesRX, closeBytes, pendingNames, pendingBytes,
               life, false)
    }

    /** Only the first cause counts; an abnormal one discards what is queued. */
    method SetDead(cause: Life)
      requires cause != Open
      modifies this`life, this`controlMsgList
      ensures life == if old(life) == Open then cause else old(life)
      ensures controlMsgList == AcksLeft(old(controlMsgList), old(life) == Open && cause == ClosedOther(true), 0)
    {
      if life == Open {
        life := cause;
        if cause == ClosedOther(true) {
          controlMsgList := [];
        }
      }
    }

    /** One call of write for the head of the queue: 1 whole message written, 0 try later, -1 error. */
    method ActualWrite(o: Outcome) returns (ret: int, out: seq<Byte>)
      requires msgListWrite != [] && firstMsgOffset < |msgListWrite[0]|
      modifies this`firstMsgOffset, this`lenWrite
      ensures ret == -1 <==> o == Fails || o == Accepts(0)
      ensures ret == 1 <==> o.Accepts? && o.n > 0 && o.n >= |msgListWrite[0]| - old(firstMsgOffset)
      ensures ret == 1 || ret == 0 || ret == -1
      ensures ret == 1 ==> firstMsgOffset == 0 && lenWrite == old(lenWrite) - |msgListWrite[0]|
      ensures ret != 1 ==>
                lenWrite == old(lenWrite) && firstMsgOffset == old(firstMsgOffset) + |out| < |msgListWrite[0]|
      ensures ret == -1 ==> out == []
      ensures ret == 1 ==> out == msgListWrite[0][old(firstMsgOffset)..]
      ensures ret == 0 ==>
                out == msgListWrite[0][old(firstMsgOffset)..firstMsgOffset] && |out| == (if o.Accepts? then o.n else 0)
    {
      var head := msgListWrite[0];
      var actual := |head| - firstMsgOffset;
      match o
      case Busy =>
        return 0, [];
      case Fails =>
        return -1, [];
      case Accepts(n) =>
        if n == 0 {
          return -1, [];
        }
        var numWrite := if n < actual then n else actual;
        out := head[firstMsgOffset..firstMsgOffset + numWrite];
        if numWrite != actual {
          firstMsgOffset := firstMsgOffset + numWrite;
          ret := 0;
        } else {
          firstMsgOffset := 0;
          lenWrite := lenWrite - |head|;
          ret := 1;
        }
    }

    /** The state of the loop of Write. */
    ghost function Loop(bytesSent: nat, out: seq<Byte>, failed: bool): Writing
      reads this
    {
      Writing(msgListWrite, firstMsgOffset, lenWrite, bytesSent, out, failed)
    }

    /** The loop of Write: messages go out in order until one is not taken whole. */
    method WriteMessages(os: seq<Outcome>) returns (bytesSent: nat, failed: bool, out: seq<Byte>)
      requires QueueOk(msgListWrite, firstMsgOffset)
      modifies this`msgListWrite, this`firstMsgOffset, this`lenWrite
      ensures Loop(bytesSent, out, failed) == WriteLoop(WriteStart(old(View())), os)
    {
      hide WriteLoop;
      bytesSent, failed, out := 0, false, [];
      var stop, k := false, 0;
      ghost var goal := WriteLoop(WriteStart(View()), os);
      while msgListWrite != [] && !stop && k < |os|
        invariant 0 <= k <= |os| && QueueOk(msgListWrite, firstMsgOffset) && (failed ==> stop)
        invariant if stop then goal == Loop(bytesSent, out, failed)
                  else goal == WriteLoop(Loop(bytesSent, out, false), os[k..])
        decreases |os| - k
      {
        LoopStep(Loop(bytesSent, out, false), os, k);
        var ret, wrote := ActualWrite(os[k]);
        out := out + wrote;
        if ret == 1 {
          bytesSent := bytesSent + |msgListWrite[0]|;
          msgListWrite := msgListWrite[1..];
        } else {
          stop, failed := true, ret == -1;
        }
        k := k + 1;
      }
      if !stop {
        LoopEnd(Loop(bytesSent, out, false), os, k);
      }
    }

    /** Write queued messages; count and acknowledge the whole ones. */
    method Write(os: seq<Outcome>, eventTriggered: bool) returns (out: seq<Byte>)
      requires QueueOk(msgListWrite, firstMsgOffset)
      modifies this
      ensures reassembleList == old(reassembleList)
      ensures (View(), controlMsgList, out) == Attempt(old(View()), old(controlMsgList), os, eventTriggered)
    {
      hide WriteLoop, QueueOk;
      if life == ClosedOther(true) {
        return [];
      }
      AttemptEnds(View(), controlMsgList, os, eventTriggered);
      var bytesSent, failed;
      bytesSent, failed, out := WriteMessages(os);
      if failed {
        SetDead(ClosedOther(true));
      } else if bytesSent > 0 {
        bytesRX := bytesRX + bytesSent;
        controlMsgList := controlMsgList + [bytesRX];
        if eventTriggered && closeBytes != 0 && bytesRX == closeBytes {
          SetDead(ClosedOnTotal);
        }
      }
    }

    /** Queue a message for the user and try to write; the limit on the queue is reported, not passed over. */
    method SendDataPrivate(block: seq<Byte>, os: seq<Outcome>) returns (full: bool, out: seq<Byte>)
      requires QueueOk(msgListWrite, firstMsgOffset) && block != []
      modifies this
      ensures reassembleList == old(reassembleList)
      ensures full <==> old(lenWrite) + |block| >= MAX_WINDOW_SIZE * 2
      ensures !full ==>
                var r := Enqueue(old(View()), block);
                && QueueOk(r.writeQ, r.firstMsgOffset)
                && (View(), controlMsgList, out) == Attempt(r, old(controlMsgList), os, false)
    {
      out := [];
      msgListWrite := msgListWrite + [block];
      if lenWrite + |block| >= MAX_WINDOW_SIZE * 2 {
        return true, out;
      }
      lenWrite := lenWrite + |block|;
      full := false;
      out := Write(os, false);
    }

    /**
     A message of the control channel: names to reassemble with the contents sent along, bytes for the
     user, or a close.  A dead connection takes it as well.
     */
    method ProcessMessage(m: Msg, os: seq<Outcome>, cache: TempCache, ghost e: Hashing, ghost mode: Mode,
                          ghost w: World, ghost sent: seq<nat>)
      returns (out: seq<Byte>, ghost steps: seq<Step>)
      requires w.rcv == View() && w.acks == sent + controlMsgList && w.ctl != [] && w.ctl[0] == m
      requires w.table == cache.tab
      requires e.Injective() && Inv(e, mode, w)
      modifies this, cache
      ensures Follows(e, mode, w, steps, View(), sent, controlMsgList, out, cache.tab)
      ensures After(e, mode, w, steps).ctl == w.ctl[1..]
      ensures !m.Raw? ==> View() == Receive(w.rcv, m)
      ensures m.Names? ==> reassembleList == old(reassembleList) + [NamesOf(m.entries)] && life == old(life)
      ensures m.Close? && m.total != 0 && m.total != old(bytesRX) ==> closeBytes == m.total && life == old(life)
      ensures m.Close? && m.total != 0 && m.total == old(bytesRX) ==>
                life == if old(life) == Open then ClosedOnTotal else old(life)
      ensures m == Close(0) ==> life == if old(life) == Open then ClosedOther(true) else old(life)
      ensures m.Raw? && !w.strayed && w.flight > 0 ==> w.entered < |w.sent| && m.data == w.sent[w.entered]
    {
      hide Inv, Follows, Enabled, Runs, After, Hashing.Injective, WriteLoop, AfterWrite, Attempt, Proper;
      hide Hashing.Trusts, NamesOf, PutContents;
      out := [];
      InvQueue(e, mode, w);
      HeadProperInv(e, mode, w);
      FollowDeliver(e, mode, w, sent, controlMsgList);
      steps := [Deliver(|sent|)];
      match m
      case Names(es) =>
        NamesCarried(e, es);
        TrustsTable(e, cache.tab);
        PutAll(cache, es, e.sha);
        var l := NamesOf(es);
        reassembleList := reassembleList + [l];
        pendingNames, pendingBytes := pendingNames + |es|, pendingBytes + Offset(l, |l|);
      case Raw(d) =>
        RawNeverFullInv(e, mode, w);
        RawInOrder(e, mode, w);
        ghost var queued := controlMsgList;
        var full;
        full, out := SendDataPrivate(d, os);
        FollowWrite(e, mode, w, steps, Enqueue(w.rcv, d), sent, queued, [], cache.tab, os);
        assert [] + out == out;
        steps := steps + if Writable(w.rcv) then [Writes(os, false, |sent|)] else [];
      case Close(total) =>
        if total == 0 {
          SetDead(ClosedOther(true));
        } else if bytesRX == total {
          SetDead(ClosedOnTotal);
        } else {
          closeBytes := total;
        }
    }

    /** Rebuild the first list, if its chunks are there, and pass its block on. */
    method RebuildFirst(cache: TempCache, os: seq<Outcome>, ghost e: Hashing, ghost mode: Mode, ghost w: World,
                        ghost sent: seq<nat>, ghost steps: seq<Step>, ghost out: seq<Byte>)
      returns (ok: bool, o: seq<Byte>, ghost more: seq<Step>)
      requires e.Injective() && reassembleList != []
      requires Follows(e, mode, w, steps, View(), sent, controlMsgList, out, cache.tab)
      modifies this, cache
      ensures ok <==> Available(old(cache.tab), old(reassembleList)[0])
      ensures !ok ==> View() == old(View()) && controlMsgList == old(controlMsgList) && cache.tab == old(cache.tab)
      ensures ok ==> reassembleList == old(reassembleList)[1..]
      ensures ok ==> Follows(e, mode, w, steps + more, View(), sent, controlMsgList, out + o, cache.tab)
    {
      hide Inv, Follows, Runs, After, Hashing.Injective, Hashing.Trusts, WriteLoop, AfterWrite, Available, Released;
      hide QueueOk, Attempt, Blocks;
      var l := reassembleList[0];
      ghost var t, r, queued := cache.tab, View(), controlMsgList;
      FollowTrusts(e, mode, w, steps, r, sent, queued, out, t);
      var buffer;
      ok, buffer := cache.ReconstructOneChunkTree(l);
      o, more := [], [];
      if ok {
        FollowRebuild(e, mode, w, steps, r, sent, queued, out, t);
        more := [Rebuilds] + if Writable(r) then [Writes(os, false, |sent|)] else [];
        pendingNames, pendingBytes := pendingNames - |l|, pendingBytes - |buffer|;
        reassembleList := reassembleList[1..];
        var full;
        full, o := SendDataPrivate(buffer, os);
        FollowWrite(e, mode, w, steps + [Rebuilds], Rebuild(r, buffer), sent, queued, out, cache.tab, os);
        assert steps + more == steps + [Rebuilds] + if Writable(r) then [Writes(os, false, |sent|)] else [];
      }
    }

    /**
     Rebuild and pass on block after block until one has to wait, because it has not been scheduled yet
     (getSent) or a chunk is missing; then close if the announced total is reached.  A connection that
     is dead, or dies on the way, still has its lists worked off.
     */
    method ReconstructOriginalData(cache: TempCache, getSent: seq<bool>, oss: seq<seq<Outcome>>, ghost e: Hashing,
                                   ghost mode: Mode, ghost w: World, ghost sent: seq<nat>)
      returns (out: seq<Byte>, ghost steps: seq<Step>)
      requires w.rcv == View() && w.acks == sent + controlMsgList && e.Injective() && Inv(e, mode, w)
      requires w.table == cache.tab && |getSent| == |reassembleList|
      modifies this, cache
      ensures Follows(e, mode, w, steps, View(), sent, controlMsgList, out, cache.tab)
      ensures var n := |old(reassembleList)| - |reassembleList|;
              && 0 <= n && reassembleList == old(reassembleList)[n..] && (forall i :: 0 <= i < n ==> getSent[i])
              && (reassembleList == [] || !getSent[n] || !Available(cache.tab, reassembleList[0]))
      ensures life == Open && closeBytes != 0 ==> bytesRX != closeBytes
    {
      hide Inv, Follows, Runs, After, Hashing.Injective, WriteLoop, AfterWrite, Available, Released;
      hide QueueOk, Attempt;
      out, steps := [], [];
      FollowStart(e, mode, w, sent, controlMsgList);
      var stop := false;
      var i := 0;
      while reassembleList != [] && !stop
        invariant Follows(e, mode, w, steps, View(), sent, controlMsgList, out, cache.tab)
        invariant 0 <= i <= |getSent| && reassembleList == old(reassembleList)[i..]
        invariant forall k :: 0 <= k < i ==> getSent[k]
        invariant stop ==> reassembleList != [] && (!getSent[i] || !Available(cache.tab, reassembleList[0]))
        decreases |reassembleList|, !stop
      {
        if !getSent[i] {
          stop := true;
        } else {
          var ok, o;
          ghost var more;
          ok, o, more := RebuildFirst(cache, if i < |oss| then oss[i] else [], e, mode, w, sent, steps, out);
          if ok {
            steps, out, i := steps + more, out + o, i + 1;
          } else {
            stop := true;
          }
        }
      }
      FollowCheck(e, mode, w, steps, View(), sent, controlMsgList, out, cache.tab);
      steps := steps + [Check];
      if closeBytes != 0 && bytesRX == closeBytes {
        SetDead(ClosedOnTotal);
      }
    }
  }

  // ---------------------------------------------------------------- what the methods do to the system

  /** One call of Write: the records and the queued acknowledgements after it, and the bytes written. */
  ghost function Attempt(r: RecvSide, queue: seq<nat>, os: seq<Outcome>, event: bool): (RecvSide, seq<nat>, seq<Byte>)
    requires QueueOk(r.writeQ, r.firstMsgOffset)
  {
    if !Writable(r) then (r, queue, [])
    else
      var v := WriteLoop(WriteStart(r), os);
      var (s, a) := AfterWrite(r, v, event);
      (s, AcksLeft(queue, v.failed && r.life == Open, 0) + a, v.out)
  }

  /** The cases of a call that may write. */
  lemma AttemptEnds(r: RecvSide, queue: seq<nat>, os: seq<Outcome>, event: bool)
    requires QueueOk(r.writeQ, r.firstMsgOffset) && Writable(r)
    ensures var v := WriteLoop(WriteStart(r), os);
            var (s, q, o) := Attempt(r, queue, os, event);
            && o == v.out && s == AfterWrite(r, v, event).0
            && (v.failed ==> q == if r.life == Open then [] else queue)
            && (!v.failed ==> q == if v.bytesSent == 0 then queue else queue + [r.bytesRX + v.bytesSent])
  {
    hide WriteLoop;
  }

  /**
   One call of Write, outcome by outcome.  The first n messages go out whole.  Unless a call fails their
   bytes are counted and acknowledged, and a write event that reaches the announced total closes; a failed
   call counts nothing and ends the connection, with what it still had queued.
   */
  lemma AttemptWrites(r: RecvSide, queue: seq<nat>, os: seq<Outcome>, event: bool) returns (n: nat)
    requires QueueOk(r.writeQ, r.firstMsgOffset) && Writable(r)
    ensures n <= |r.writeQ| && n <= |os| && forall k :: 0 <= k < n ==> Whole(os[k], Left(WriteStart(r), k))
    ensures n < |r.writeQ| && n < |os| ==> !Whole(os[n], Left(WriteStart(r), n))
    ensures var (s, q, o) := Attempt(r, queue, os, event);
            && s.writeQ == r.writeQ[n..] && s.reassemble == r.reassemble && s.closeBytes == r.closeBytes
            && if n < |r.writeQ| && n < |os| && (os[n] == Fails || os[n] == Accepts(0)) then
                 && s.bytesRX == r.bytesRX && s.life == (if r.life == Open then ClosedOther(true) else r.life)
                 && q == if r.life == Open then [] else queue
               else
                 && s.bytesRX == r.bytesRX + |Flat(r.writeQ[..n])| && q == queue + (if n > 0 then [s.bytesRX] else [])
                 && s.life == if r.life == Open && event && n > 0 && r.closeBytes != 0 && s.bytesRX == r.closeBytes
                              then ClosedOnTotal else r.life
  {
    hide WriteLoop, QueueOk, Flat, Whole;
    n := WriteLoopEnds(WriteStart(r), os);
    AttemptEnds(r, queue, os, event);
    WriteLoopWrote(WriteStart(r), os);
    SentWhole(r, WriteLoop(WriteStart(r), os), n);
  }

  /** The bytes counted are those of the messages that are gone. */
  lemma SentWhole(r: RecvSide, v: Writing, n: nat)
    requires QueueOk(r.writeQ, r.firstMsgOffset) && Wrote(WriteStart(r), v) && n <= |r.writeQ| && v.q == r.writeQ[n..]
    ensures v.bytesSent == |Flat(r.writeQ[..n])| && (v.bytesSent > 0 <==> n > 0)
  {
    hide Flat;
    FlatSplit(r.writeQ, n);
    if n > 0 {
      FlatPositive(r.writeQ[..n]);
    } else {
      FlatNothing(r.writeQ[..n]);
    }
  }

  lemma FlatNothing(q: seq<seq<Byte>>)
    requires q == []
    ensures Flat(q) == []
  {
  }

  /**
   From w the steps are a run that brings the receiver to r and the table to t and writes out; of the
   acknowledgements, sent are on their way and queue is still with the connection.
   */
  ghost predicate Follows(e: Hashing, mode: Mode, w: World, steps: seq<Step>, r: RecvSide, sent: seq<nat>,
                          queue: seq<nat>, out: seq<Byte>, t: Table) {
    && Runs(e, mode, w, steps)
    && var v := After(e, mode, w, steps);
    && v.rcv == r && v.acks == sent + queue && v.written == w.written + out && v.table == t
    && v.snd == w.snd && v.sent == w.sent && v.stream == w.stream
    && Inv(e, mode, v)
  }

  lemma FollowStart(e: Hashing, mode: Mode, w: World, sent: seq<nat>, queue: seq<nat>)
    requires Inv(e, mode, w) && w.acks == sent + queue
    ensures Follows(e, mode, w, [], w.rcv, sent, queue, [], w.table)
  {
    hide Inv;
    assert w.written + [] == w.written;
  }

  /** Taking a message off the channel; a close with total zero discards the queued acknowledgements. */
  lemma FollowDeliver(e: Hashing, mode: Mode, w: World, sent: seq<nat>, queue: seq<nat>)
    requires e.Injective() && Inv(e, mode, w) && w.ctl != [] && w.acks == sent + queue
    ensures Follows(e, mode, w, [Deliver(|sent|)], Receive(w.rcv, w.ctl[0]), sent,
                    AcksLeft(queue, !w.rcv.gone && w.rcv.life == Open && w.ctl[0] == Close(0), 0), [],
                    Stored(w.table, w.rcv, w.ctl[0]))
    ensures After(e, mode, w, [Deliver(|sent|)]).ctl == w.ctl[1..]
  {
    hide Inv, Hashing.Injective, Receive, Stored;
    StepKeeps(e, mode, w, Deliver(|sent|));
    RunsMore(e, mode, w, [], Deliver(|sent|));
    assert [] + [Deliver(|sent|)] == [Deliver(|sent|)];
    assert w.written + [] == w.written && sent + [] == sent && (sent + queue)[..|sent|] == sent;
  }

  lemma FollowCheck(e: Hashing, mode: Mode, w: World, steps: seq<Step>, r: RecvSide, sent: seq<nat>, queue: seq<nat>,
                    out: seq<Byte>, t: Table)
    requires e.Injective() && Follows(e, mode, w, steps, r, sent, queue, out, t) && !r.gone
    ensures Follows(e, mode, w, steps + [Check], CloseCheck(r), sent, queue, out, t)
  {
    hide Inv, Runs, After, Hashing.Injective;
    StepKeeps(e, mode, After(e, mode, w, steps), Check);
    RunsMore(e, mode, w, steps, Check);
  }

  /** The writes after a message has been queued; a connection that died abnormally writes nothing. */
  lemma FollowWrite(e: Hashing, mode: Mode, w: World, steps: seq<Step>, r: RecvSide, sent: seq<nat>, queue: seq<nat>,
                    out: seq<Byte>, t: Table, os: seq<Outcome>)
    requires e.Injective() && Follows(e, mode, w, steps, r, sent, queue, out, t) && !r.gone
    ensures QueueOk(r.writeQ, r.firstMsgOffset)
    ensures var (s, q, o) := Attempt(r, queue, os, false);
            var more := steps + if Writable(r) then [Writes(os, false, |sent|)] else [];
            && Follows(e, mode, w, more, s, sent, q, out + o, t)
            && After(e, mode, w, more).ctl == After(e, mode, w, steps).ctl
  {
    hide Inv, Runs, After, Hashing.Injective, WriteLoop, AfterWrite, QueueOk;
    var x := After(e, mode, w, steps);
    InvQueue(e, mode, x);
    if Writable(r) {
      StepKeeps(e, mode, x, Writes(os, false, |sent|));
      RunsMore(e, mode, w, steps, Writes(os, false, |sent|));
      var v := WriteLoop(WriteStart(r), os);
      var (s, a) := AfterWrite(r, v, false);
      assert (sent + queue)[..|sent|] == sent && sent + queue + a == sent + (queue + a);
      assert sent + [] + a == sent + ([] + a);
      assert w.written + out + v.out == w.written + (out + v.out);
    } else {
      assert steps + [] == steps && out + [] == out;
    }
  }

  lemma InvQueue(e: Hashing, mode: Mode, w: World)
    requires Inv(e, mode, w)
    ensures QueueOk(w.rcv.writeQ, w.rcv.firstMsgOffset) && e.Trusts(w.table)
  {
    hide Ordered, SentOk, AcksOk, LateOk, Flat, QueueOk, Hashing.Trusts;
  }

  lemma HeadProperInv(e: Hashing, mode: Mode, w: World)
    requires Inv(e, mode, w) && w.ctl != []
    ensures Proper(e, w.ctl[0])
  {
    hide Base, Ordered;
    HeadData(e, w);
  }

  lemma NamesCarried(e: Hashing, es: seq<Entry>)
    requires Proper(e, Names(es))
    ensures Authentic(es, e.sha) && |NamesOf(es)| == |es|
  {
  }

  lemma RawNeverFullInv(e: Hashing, mode: Mode, w: World)
    requires Inv(e, mode, w) && w.ctl != [] && w.ctl[0].Raw?
    ensures w.ctl[0].data != [] && w.rcv.lenWrite + |w.ctl[0].data| < MAX_WINDOW_SIZE
  {
    hide Base, Ordered;
    RawNeverFull(e, w);
  }

  /** A raw message in order is the next block. */
  lemma RawInOrder(e: Hashing, mode: Mode, w: World)
    requires Inv(e, mode, w) && w.ctl != [] && w.ctl[0].Raw? && !w.rcv.gone
    ensures !w.strayed && w.flight > 0 ==> w.entered < |w.sent| && w.ctl[0].data == w.sent[w.entered]
  {
    hide Base, Ordered;
    if !w.strayed && w.flight > 0 {
      DeliverRawQueues(e, mode, w, 0);
    }
  }

  lemma FollowTrusts(e: Hashing, mode: Mode, w: World, steps: seq<Step>, r: RecvSide, sent: seq<nat>, queue: seq<nat>,
                     out: seq<Byte>, t: Table)
    requires Follows(e, mode, w, steps, r, sent, queue, out, t)
    ensures Counted(t) && (forall n :: n in t ==> t[n].block != []) && (r.reassemble != [] ==> r.reassemble[0] != [])
  {
    hide Runs, After, Inv;
    var x := After(e, mode, w, steps);
    InvQueue(e, mode, x);
    TrustsTable(e, t);
    if r.reassemble != [] {
      FirstNonempty(e, mode, x);
    }
  }

  lemma FirstNonempty(e: Hashing, mode: Mode, w: World)
    requires Inv(e, mode, w) && w.rcv.reassemble != []
    ensures w.rcv.reassemble[0] != []
  {
    hide Ordered, SentOk, PendingOk, CountsOk, AcksOk, LateOk, Hashing.Trusts, Proper;
    assert Fine(e, w.rcv.reassemble[0]);
  }

  /** Rebuilding the first list: the queue has room for the block. */
  lemma FollowRebuild(e: Hashing, mode: Mode, w: World, steps: seq<Step>, r: RecvSide, sent: seq<nat>, queue: seq<nat>,
                      out: seq<Byte>, t: Table)
    requires e.Injective() && Follows(e, mode, w, steps, r, sent, queue, out, t) && r.reassemble != [] && !r.gone
    requires Available(t, r.reassemble[0])
    ensures var l := r.reassemble[0]; var block := Blocks(t, l, |l|);
            && block != [] && r.lenWrite + |block| < MAX_WINDOW_SIZE && QueueOk(r.writeQ, r.firstMsgOffset)
            && Follows(e, mode, w, steps + [Rebuilds], Rebuild(r, block), sent, queue, out, Released(t, l, |l|))
  {
    hide Base, Ordered, Hashing.Injective, Available, Runs, After, Blocks, Released;
    var x := After(e, mode, w, steps);
    WriteBufferNeverFull(e, mode, x);
    InvQueue(e, mode, x);
    StepKeeps(e, mode, x, Rebuilds);
    RunsMore(e, mode, w, steps, Rebuilds);
  }

  lemma TrustsTable(e: Hashing, t: Table)
    requires e.Trusts(t)
    ensures Counted(t) && Sound(t, e.sha) && forall n :: n in t ==> t[n].block != []
  {
  }

  lemma LoopStep(w: Writing, os: seq<Outcome>, k: nat)
    requires QueueOk(w.q, w.offset) && w.q != [] && k < |os|
    ensures QueueOk(WriteHead(w, os[k]).0.q, WriteHead(w, os[k]).0.offset)
    ensures var (v, more) := WriteHead(w, os[k]); WriteLoop(w, os[k..]) == if more then WriteLoop(v, os[k + 1..]) else v
    ensures w.out + w.q[0][w.offset..w.offset] == w.out
  {
    assert os[k..][0] == os[k] && os[k..][1..] == os[k + 1..];
  }

  lemma LoopEnd(w: Writing, os: seq<Outcome>, k: nat)
    requires QueueOk(w.q, w.offset) && k <= |os| && (w.q == [] || k == |os|)
    ensures WriteLoop(w, os[k..]) == w
  {
  }
}
