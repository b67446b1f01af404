/** Every run of one direction keeps the invariants of the link. */
module LinkSafety {
  import opened Bytes
  import opened ChunkNames
  import opened Delivery
  import opened ChunkTable
  import opened Receiver
  import opened Described
  import opened Link

  // ---------------------------------------------------------------- flattening

  lemma FlatAppend(s: seq<seq<Byte>>, b: seq<Byte>)
    ensures Flat(s + [b]) == Flat(s) + b
  {
    assert (s + [b])[..|s|] == s;
  }

  lemma {:induction false} FlatSplit(s: seq<seq<Byte>>, a: nat)
    requires a <= |s|
    ensures Flat(s) == Flat(s[..a]) + Flat(s[a..])
    decreases |s|
  {
    if a == |s| {
      assert s[..a] == s && s[a..] == [];
    } else {
      var n := |s| - 1;
      FlatSplit(s[..n], a);
      assert s[..n][..a] == s[..a];
      assert s[a..] == s[..n][a..] + [s[n]];
      FlatAppend(s[..n][a..], s[n]);
      assert Flat(s[..a]) + (Flat(s[..n][a..]) + s[n]) == Flat(s[..a]) + Flat(s[..n][a..]) + s[n];
    }
  }

  lemma FlatOne(b: seq<Byte>)
    ensures Flat([b]) == b
  {
    FlatAppend([], b);
    assert [] + [b] == [b];
  }

  lemma FlatFront(s: seq<seq<Byte>>)
    requires s != []
    ensures Flat(s) == s[0] + Flat(s[1..])
  {
    FlatSplit(s, 1);
    assert s[..1] == [s[0]];
    FlatOne(s[0]);
  }

  lemma FlatPositive(s: seq<seq<Byte>>)
    requires BlocksOk(s) && s != []
    ensures |Flat(s)| > 0
  {
    FlatFront(s);
  }

  /** A prefix is no longer, and shorter unless it is everything. */
  lemma FlatPrefix(s: seq<seq<Byte>>, a: nat)
    requires a <= |s| && BlocksOk(s)
    ensures |Flat(s[..a])| <= |Flat(s)| && (|Flat(s[..a])| == |Flat(s)| ==> a == |s|)
  {
    FlatSplit(s, a);
    if a < |s| {
      FlatPositive(s[a..]);
    }
  }

  lemma FlatExtend(s: seq<seq<Byte>>, a: nat)
    requires a < |s|
    ensures Flat(s[..a + 1]) == Flat(s[..a]) + s[a]
  {
    assert s[..a + 1] == s[..a] + [s[a]];
    FlatAppend(s[..a], s[a]);
  }

  // ---------------------------------------------------------------- writing

  /** What a run of writes keeps: the stream of bytes still to come, and the counts. */
  ghost predicate Wrote(v: Writing, w: Writing) {
    && QueueOk(v.q, v.offset) && QueueOk(w.q, w.offset) && v.offset <= |Flat(v.q)| && w.offset <= |Flat(w.q)|
    && w.out + Flat(w.q)[w.offset..] == v.out + Flat(v.q)[v.offset..]
    && w.lenWrite - |Flat(w.q)| == v.lenWrite - |Flat(v.q)|
    && w.bytesSent + |Flat(w.q)| == v.bytesSent + |Flat(v.q)|
  }

  lemma OffsetInside(q: seq<seq<Byte>>, offset: nat)
    requires QueueOk(q, offset)
    ensures offset <= |Flat(q)|
  {
    if q != [] {
      FlatFront(q);
    }
  }

  lemma WroteSelf(w: Writing)
    requires QueueOk(w.q, w.offset)
    ensures Wrote(w, w) && Wrote(w, w.(failed := true))
  {
    OffsetInside(w.q, w.offset);
  }

  lemma WrotePart(w: Writing, n: nat)
    requires QueueOk(w.q, w.offset) && w.q != [] && 0 < n < |w.q[0]| - w.offset
    ensures Wrote(w, w.(offset := w.offset + n, out := w.out + w.q[0][w.offset..w.offset + n]))
  {
    FlatFront(w.q);
    var f, o := Flat(w.q), w.offset;
    assert f[o..o + n] == w.q[0][o..o + n];
    assert f[o..] == f[o..o + n] + f[o + n..];
    assert w.out + (f[o..o + n] + f[o + n..]) == w.out + f[o..o + n] + f[o + n..];
  }

  lemma WroteHead(w: Writing)
    requires QueueOk(w.q, w.offset) && w.q != []
    ensures Wrote(w,
                  Writing(w.q[1..], 0, w.lenWrite - |w.q[0]|, w.bytesSent + |w.q[0]|, w.out + w.q[0][w.offset..],
                          false))
  {
    FlatFront(w.q);
    var f, o := Flat(w.q), w.offset;
    var rest := Flat(w.q[1..]);
    assert f[o..] == w.q[0][o..] + rest;
    assert w.out + (w.q[0][o..] + rest) == w.out + w.q[0][o..] + rest;
    assert rest[0..] == rest;
  }

  lemma WroteOne(w: Writing, o: Outcome)
    requires QueueOk(w.q, w.offset) && w.q != []
    ensures Wrote(w, WriteHead(w, o).0)
  {
    hide Wrote;
    WroteSelf(w);
    WroteHead(w);
    if o.Accepts? && 0 < o.n < |w.q[0]| - w.offset {
      WrotePart(w, o.n);
    }
  }

  lemma WroteThen(u: Writing, v: Writing, w: Writing)
    requires Wrote(u, v) && Wrote(v, w)
    ensures Wrote(u, w)
  {
  }

  lemma WroteQueue(v: Writing, w: Writing)
    requires Wrote(v, w)
    ensures QueueOk(w.q, w.offset)
  {
  }

  lemma {:induction false} WriteLoopWrote(w: Writing, os: seq<Outcome>)
    requires QueueOk(w.q, w.offset)
    ensures Wrote(w, WriteLoop(w, os))
    decreases |os|
  {
    hide Wrote, WriteHead;
    WroteSelf(w);
    if w.q != [] && os != [] {
      var (v, more) := WriteHead(w, os[0]);
      WroteOne(w, os[0]);
      WroteQueue(w, v);
      if more {
        WriteLoopWrote(v, os[1..]);
        WroteThen(w, v, WriteLoop(v, os[1..]));
      }
    }
  }

  // ---------------------------------------------------------------- what the table can serve

  /** The call takes all that is left of a message. */
  predicate Whole(o: Outcome, left: nat) {
    o.Accepts? && o.n > 0 && o.n >= left
  }

  /** What is left of message k of the queue. */
  function Left(w: Writing, k: nat): nat
    requires QueueOk(w.q, w.offset) && k < |w.q|
  {
    |w.q[k]| - if k == 0 then w.offset else 0
  }

  lemma HeadGone(w: Writing, o: Outcome)
    requires QueueOk(w.q, w.offset) && w.q != [] && WriteHead(w, o).1
    ensures QueueOk(WriteHead(w, o).0.q, WriteHead(w, o).0.offset) && WriteHead(w, o).0.failed == false
  {
  }

  /**
   Message after message goes out whole; the loop ends with the queue, with the outcomes, or at a message
   that is not taken whole, of which what is taken counts for the next time.
   */
  lemma {:induction false} WriteLoopEnds(w: Writing, os: seq<Outcome>) returns (n: nat)
    requires QueueOk(w.q, w.offset) && !w.failed
    ensures var v := WriteLoop(w, os);
            && n <= |w.q| && n <= |os| && v.q == w.q[n..]
            && (forall k :: 0 <= k < n ==> Whole(os[k], Left(w, k)))
            && var stuck := n < |w.q| && n < |os|;
            && (stuck ==> !Whole(os[n], Left(w, n)))
            && v.offset == (if n == 0 then w.offset else 0) + (if stuck && os[n].Accepts? then os[n].n else 0)
            && (v.failed <==> stuck && (os[n] == Fails || os[n] == Accepts(0)))
    decreases |os|
  {
    n := 0;
    if w.q != [] && os != [] {
      var (v, more) := WriteHead(w, os[0]);
      if more {
        HeadGone(w, os[0]);
        var m := WriteLoopEnds(v, os[1..]);
        n := m + 1;
        forall k | 0 <= k < n ensures Whole(os[k], Left(w, k)) {
          if k > 0 {
            assert Whole(os[1..][k - 1], Left(v, k - 1));
          }
        }
        assert w.q[1..][m..] == w.q[n..];
      }
    }
  }

  lemma PutTrusts(e: Hashing, t: Table, n: Sha1, block: seq<Byte>)
    requires e.Trusts(t) && block in e.play && block != [] && e.sha(block) == n
    ensures e.Trusts(Put(t, n, block))
  {
  }

  /** The contents of a message leave the table trusted. */
  lemma {:induction false} ContentsTrusted(e: Hashing, t: Table, es: seq<Entry>, i: nat)
    requires e.Trusts(t) && Carries(e, es) && i <= |es|
    ensures e.Trusts(PutContents(t, es, i))
  {
    hide Hashing.Trusts, Put;
    if i > 0 {
      ContentsTrusted(e, t, es, i - 1);
      if es[i - 1].content.Some? {
        PutTrusts(e, PutContents(t, es, i - 1), es[i - 1].name, es[i - 1].content.value);
      }
    }
  }

  lemma ReleasedTrusts(e: Hashing, t: Table, l: seq<ChunkNameInfo>)
    requires e.Trusts(t)
    ensures e.Trusts(Released(t, l, |l|))
  {
  }

  lemma RightMeans(e: Hashing, mode: Mode, s: SendSide, m: nat, msg: Msg)
    requires 0 < m <= |s.input| && RightMessage(e, mode, s, m, msg)
    ensures Means(e, msg, s.input[..m]) && !msg.Close? && Proper(e, msg) && MsgBytes(msg) == m
    ensures msg.Raw? <==> !mode.chunking || (mode.skipFirst && s.numChunks == 0)
  {
    hide NamesPart, Carries;
    assert m == |s.input| ==> s.input[..m] == s.input;
  }

  /** The block of a list, and its length. */
  lemma FineRebuilt(e: Hashing, l: seq<ChunkNameInfo>, t: Table)
    requires e.Injective() && e.Trusts(t) && Fine(e, l) && Available(t, l)
    ensures l != [] && |Blocks(t, l, |l|)| == Offset(l, |l|) > 0
  {
    hide Hashing.Injective, Hashing.Trusts, Available, Blocks, NamesPart;
    var block :| Describes(e, l, block);
    Rebuilt(e, l, block, t);
    DescribedPositive(e, l, block);
  }

  lemma DescribedPositive(e: Hashing, l: seq<ChunkNameInfo>, block: seq<Byte>)
    requires Describes(e, l, block)
    ensures l != [] && Offset(l, |l|) == |block| > 0
  {
    assert NamesPart(e, l, block, |l| - 1);
  }

  lemma SuppliedMore(e: Hashing, t: Table, ctl: seq<Msg>, ls: seq<seq<ChunkNameInfo>>, msg: Msg)
    requires Supplied(e, t, ctl, ls) && Proper(e, msg)
    ensures Supplied(e, t, ctl + [msg], ls)
  {
    hide Proper, Fine, Hashing.Trusts;
  }

  lemma SuppliedLess(e: Hashing, t: Table, ctl: seq<Msg>, ls: seq<seq<ChunkNameInfo>>, i: nat, j: nat, k: nat)
    requires Supplied(e, t, ctl, ls) && i <= j <= |ctl| && k <= |ls|
    ensures Supplied(e, t, ctl[i..j], ls[k..])
  {
    hide Proper, Fine, Hashing.Trusts;
  }

  lemma SuppliedTable(e: Hashing, t: Table, u: Table, ctl: seq<Msg>, ls: seq<seq<ChunkNameInfo>>)
    requires Supplied(e, t, ctl, ls) && e.Trusts(u)
    ensures Supplied(e, u, ctl, ls) && e.Trusts(t)
  {
    hide Proper, Fine, Hashing.Trusts;
  }

  /** Taking a message off the channel: contents go to the table and names to the reassembly list. */
  lemma SuppliedReceive(e: Hashing, t: Table, ctl: seq<Msg>, r: RecvSide)
    requires Supplied(e, t, ctl, r.reassemble) && ctl != []
    ensures Supplied(e, Stored(t, r, ctl[0]), ctl[1..], Receive(r, ctl[0]).reassemble)
  {
    hide Fine, Hashing.Trusts, Carries, PutContents, NamesOf;
    var m := ctl[0];
    assert Proper(e, m);
    SuppliedLess(e, t, ctl, r.reassemble, 1, |ctl|, 0);
    assert ctl[1..|ctl|] == ctl[1..] && r.reassemble[0..] == r.reassemble;
    if m.Names? && !r.gone {
      ContentsTrusted(e, t, m.entries, |m.entries|);
      SuppliedTable(e, t, Stored(t, r, m), ctl[1..], r.reassemble);
      ListFine(e, r.reassemble, NamesOf(m.entries));
    }
  }

  lemma ListFine(e: Hashing, ls: seq<seq<ChunkNameInfo>>, l: seq<ChunkNameInfo>)
    requires (forall i :: 0 <= i < |ls| ==> Fine(e, ls[i])) && Fine(e, l)
    ensures forall i :: 0 <= i < |ls + [l]| ==> Fine(e, (ls + [l])[i])
  {
    hide Fine;
  }

  // ---------------------------------------------------------------- counting

  lemma {:induction false} CtlMore(ctl: seq<Msg>, m: Msg)
    ensures CtlBytes(ctl + [m]) == CtlBytes(ctl) + MsgBytes(m)
  {
    hide MsgBytes;
    if ctl == [] {
      assert [] + [m] == [m] && [m][1..] == [];
    } else {
      CtlMore(ctl[1..], m);
      assert (ctl + [m])[1..] == ctl[1..] + [m];
    }
  }

  lemma {:induction false} CtlLess(ctl: seq<Msg>, k: nat)
    requires k <= |ctl|
    ensures CtlBytes(ctl[..k]) <= CtlBytes(ctl)
  {
    hide MsgBytes;
    if k > 0 {
      CtlLess(ctl[1..], k - 1);
      assert ctl[..k][1..] == ctl[1..][..k - 1];
    }
  }

  lemma {:induction false} TotalsAppend(ls: seq<seq<ChunkNameInfo>>, l: seq<ChunkNameInfo>)
    ensures NamesTotal(ls + [l]) == NamesTotal(ls) + |l| && BytesTotal(ls + [l]) == BytesTotal(ls) + Offset(l, |l|)
  {
    hide Offset;
    if ls == [] {
      assert [] + [l] == [l] && [l][1..] == [];
    } else {
      TotalsAppend(ls[1..], l);
      assert (ls + [l])[1..] == ls[1..] + [l];
    }
  }

  lemma CountsEnqueue(r: RecvSide, ctl: seq<Msg>, written: seq<Byte>, bytesTX: nat, b: seq<Byte>)
    requires QueueOk(r.writeQ, r.firstMsgOffset) && r.lenWrite == |Flat(r.writeQ)| && b != []
    ensures var v := Enqueue(r, b); QueueOk(v.writeQ, v.firstMsgOffset) && v.lenWrite == |Flat(v.writeQ)|
  {
    FlatAppend(r.writeQ, b);
  }

  lemma CountsReceive(e: Hashing, r: RecvSide, ctl: seq<Msg>, written: seq<Byte>, bytesTX: nat)
    requires CountsOk(r, ctl, written, bytesTX) && PendingOk(r) && ctl != [] && Proper(e, ctl[0])
    ensures CountsOk(Receive(r, ctl[0]), ctl[1..], written, bytesTX) && PendingOk(Receive(r, ctl[0]))
  {
    hide Fine, Carries, Flat, NamesOf, Offset, NamesTotal, BytesTotal, QueueOk;
    match ctl[0]
    case Names(es) => TotalsAppend(r.reassemble, NamesOf(es));
      NamesLength(es);
    case Raw(d) => CountsEnqueue(r, ctl, written, bytesTX, d);
    case Close(_) =>
  }

  lemma NamesLength(es: seq<Entry>)
    ensures |NamesOf(es)| == |es|
  {
  }

  lemma CountsRebuild(e: Hashing, r: RecvSide, ctl: seq<Msg>, written: seq<Byte>, bytesTX: nat, block: seq<Byte>)
    requires CountsOk(r, ctl, written, bytesTX) && PendingOk(r) && r.reassemble != []
    requires |block| == Offset(r.reassemble[0], |r.reassemble[0]|) > 0
    ensures CountsOk(Rebuild(r, block), ctl, written, bytesTX) && PendingOk(Rebuild(r, block))
  {
    hide Flat, Offset, QueueOk, CtlBytes;
    CountsEnqueue(r, ctl, written, bytesTX, block);
  }

  /** Whole messages are counted, and a failed write counts nothing. */
  lemma CountsWritten(r: RecvSide, ctl: seq<Msg>, written: seq<Byte>, bytesTX: nat, v: Writing, event: bool)
    requires CountsOk(r, ctl, written, bytesTX) && Wrote(WriteStart(r), v)
    ensures CountsOk(AfterWrite(r, v, event).0, ctl, written + v.out, bytesTX)
  {
    hide Flat, QueueOk, BytesTotal, CtlBytes;
    assert |v.out| + |Flat(v.q)| - v.offset == |Flat(r.writeQ)| - r.firstMsgOffset by {
      WroteSizes(WriteStart(r), v);
    }
  }

  lemma WroteSizes(w: Writing, v: Writing)
    requires Wrote(w, v)
    ensures |v.out| + |Flat(v.q)| - v.offset == |w.out| + |Flat(w.q)| - w.offset
  {
    assert |v.out + Flat(v.q)[v.offset..]| == |w.out + Flat(w.q)[w.offset..]|;
  }

  // ---------------------------------------------------------------- the sender's counters

  /** The resume test never wraps: the window exceeds what is outstanding. */
  lemma NoWrap(s: SendSide, sent: seq<seq<Byte>>)
    requires SenderOk(s, sent)
    ensures 0 <= s.numSent < MAX_WINDOW_SIZE && Unsigned(MAX_WINDOW_SIZE - s.numSent) == MAX_WINDOW_SIZE - s.numSent
  {
  }

  lemma AckedOk(s: SendSide, sent: seq<seq<Byte>>, stream: seq<Byte>, ack: nat)
    requires SentOk(s, sent, stream) && s.lastAcked <= ack <= s.bytesTX
    ensures SentOk(Acked(s, ack), sent, stream) && Acked(s, ack).lastAcked == ack
  {
  }

  lemma ConsumeOk(s: SendSide, sent: seq<seq<Byte>>, stream: seq<Byte>, m: nat, chunked: bool)
    requires SentOk(s, sent, stream) && 0 < m <= |s.input| && MaySend(s, m)
    ensures SentOk(Consume(s, m, chunked), sent + [s.input[..m]], stream)
  {
    FlatAppend(sent, s.input[..m]);
    assert s.input == s.input[..m] + s.input[m..];
  }

  lemma AckedShape(s: SendSide, ack: nat)
    ensures var s' := Acked(s, ack);
            && s'.input == s.input && s'.eof == s.eof && s'.bytesTX == s.bytesTX && s'.numChunks == s.numChunks
            && s'.gone == s.gone
    ensures s.status == FinSent || s.status == Done || s.status == Closed ==>
              Acked(s, ack).status == FinSent || Acked(s, ack).status == Done || Acked(s, ack).status == Closed
    ensures s.status == Closed ==> Acked(s, ack).status == Closed
    ensures s.status != FinSent && s.status != Closed ==> Acked(s, ack).status != Closed
  {
  }

  lemma AckPopped(lastAcked: nat, acks: seq<nat>, bytesRX: nat)
    requires AcksOk(lastAcked, acks, bytesRX) && acks != []
    ensures AcksOk(acks[0], acks[1..], bytesRX) && AcksOk(lastAcked, acks[1..], bytesRX)
    ensures lastAcked <= acks[0] <= bytesRX
  {
  }

  lemma AckAppended(lastAcked: nat, acks: seq<nat>, bytesRX: nat, rx: nat)
    requires AcksOk(lastAcked, acks, bytesRX) && bytesRX <= rx
    ensures AcksOk(lastAcked, acks + [rx], rx)
  {
  }

  /** Acknowledgements may be lost from the end of the channel. */
  lemma FewerAcks(lastAcked: nat, acks: seq<nat>, bytesRX: nat, dies: bool, kept: nat)
    requires AcksOk(lastAcked, acks, bytesRX) && kept <= |acks|
    ensures AcksOk(lastAcked, AcksLeft(acks, dies, kept), bytesRX)
  {
  }

  // ---------------------------------------------------------------- late messages

  lemma LateSend(e: Hashing, mode: Mode, w: World, m: nat, msg: Msg)
    requires LateOk(w) && Enabled(e, mode, w, Send(m, msg)) && !msg.Close?
    requires Announced(w) ==> w.snd.input == []
    ensures LateOk(Next(e, mode, w, Send(m, msg)))
  {
    hide RightMessage;
    var v := Next(e, mode, w, Send(m, msg));
    assert forall j :: 0 <= j < |w.ctl| ==> v.ctl[j] == w.ctl[j];
    if w.aborted && w.rcv.life == Open {
      WarnedMore(w.ctl, w.flight, msg);
    }
    assert Announced(v) ==> Announced(w);
  }

  lemma WarnedMore(ctl: seq<Msg>, flight: nat, m: Msg)
    requires Warned(ctl, flight)
    ensures Warned(ctl + [m], flight)
  {
    var i :| flight <= i < |ctl| && ctl[i] == Close(0) && forall j :: flight <= j < i ==> ctl[j].Close?;
    assert (ctl + [m])[i] == Close(0) && forall j :: flight <= j < i ==> (ctl + [m])[j].Close?;
  }

  /** Popping the channel: its head is a late message only for a dead receiver. */
  lemma WarnedPopped(ctl: seq<Msg>, flight: nat)
    requires flight <= |ctl| && ctl != []
    ensures var f := if flight == 0 then 0 else flight - 1;
            && (Late(ctl[1..], f) ==> Late(ctl, flight))
            && (Warned(ctl, flight) && !(flight == 0 && ctl[0] == Close(0)) ==> Warned(ctl[1..], f))
            && (Warned(ctl, flight) && flight == 0 ==> ctl[0].Close?)
            && (flight == 0 && !ctl[0].Close? ==> Late(ctl, flight))
  {
    var f := if flight == 0 then 0 else flight - 1;
    var c := ctl[1..];
    if Late(c, f) {
      var j :| f <= j < |c| && !c[j].Close?;
      assert ctl[j + 1] == c[j];
    }
    if Warned(ctl, flight) {
      var i :| flight <= i < |ctl| && ctl[i] == Close(0) && forall j :: flight <= j < i ==> ctl[j].Close?;
      if i > 0 {
        assert c[i - 1] == Close(0) && forall j :: f <= j < i - 1 ==> c[j] == ctl[j + 1];
      }
    }
  }

  lemma LateDeliver(e: Hashing, mode: Mode, w: World, kept: nat)
    requires LateOk(w) && Enabled(e, mode, w, Deliver(kept))
    ensures LateOk(Next(e, mode, w, Deliver(kept)))
  {
    hide Late, Warned, PutContents, NamesOf, MsgBytes;
    var v := Next(e, mode, w, Deliver(kept));
    WarnedPopped(w.ctl, w.flight);
    AnnouncedPopped(w, v);
  }

  lemma AnnouncedPopped(w: World, v: World)
    requires w.ctl != [] && v.ctl == w.ctl[1..] && v.rcv == Receive(w.rcv, w.ctl[0])
    ensures Announced(v) ==> Announced(w)
  {
    hide NamesOf, MsgBytes;
    if j :| 0 <= j < |v.ctl| && v.ctl[j].Close? && v.ctl[j].total != 0 {
      assert w.ctl[j + 1] == v.ctl[j];
    }
    assert w.ctl[0].Close? && w.ctl[0].total != 0 ==> Announced(w);
  }

  lemma LateDies(e: Hashing, mode: Mode, w: World, kept: nat)
    requires LateOk(w) && Enabled(e, mode, w, SenderDies(true, kept))
    ensures LateOk(Next(e, mode, w, SenderDies(true, kept)))
  {
    var v := Next(e, mode, w, SenderDies(true, kept));
    assert forall j :: 0 <= j < kept ==> v.ctl[j] == w.ctl[j];
    assert v.ctl[kept] == Close(0);
    assert !Late(w.ctl, w.flight);
    forall j | v.flight <= j < |v.ctl| ensures v.ctl[j].Close? {
    }
    assert Warned(v.ctl, v.flight);
  }

  lemma LateFinish(e: Hashing, mode: Mode, w: World)
    requires LateOk(w) && Enabled(e, mode, w, Finish) && w.snd.eof
    ensures LateOk(Next(e, mode, w, Finish))
  {
    var v := Next(e, mode, w, Finish);
    assert forall j :: 0 <= j < |w.ctl| ==> v.ctl[j] == w.ctl[j];
  }

  // ---------------------------------------------------------------- what every step keeps in every run

  lemma AnnouncedDone(e: Hashing, mode: Mode, w: World)
    requires Inv(e, mode, w) && Announced(w)
    ensures w.snd.eof && w.snd.input == []
  {
    hide Supplied, SentOk, PendingOk, CountsOk, AcksOk, Late, Warned, ListsOk, QueuesOk, StreamOk, CompleteOk;
    hide IsPrefix;
  }

  lemma SenderBase(e: Hashing, mode: Mode, w: World, st: Step)
    requires Inv(e, mode, w) && Enabled(e, mode, w, st)
    requires st.Read? || st.Send? || st.Eof? || st.Finish? || st.SenderGone? || st.SenderDies?
    ensures Base(e, Next(e, mode, w, st))
  {
    hide Supplied, SentOk, PendingOk, CountsOk, AcksOk, LateOk, Ordered, IsPrefix, RightMessage;
    SenderSupplied(e, mode, w, st);
    SenderCounts(e, mode, w, st);
    SenderSent(e, mode, w, st);
    SenderLate(e, mode, w, st);
  }

  lemma SenderSupplied(e: Hashing, mode: Mode, w: World, st: Step)
    requires Base(e, w) && Enabled(e, mode, w, st)
    requires st.Read? || st.Send? || st.Eof? || st.Finish? || st.SenderGone? || st.SenderDies?
    ensures Supplied(e, w.table, Next(e, mode, w, st).ctl, w.rcv.reassemble)
  {
    hide Supplied, SentOk, PendingOk, CountsOk, AcksOk, LateOk, RightMessage, Fine, Carries, Means;
    match st
    case Send(m, msg) =>
      RightMeans(e, mode, w.snd, m, msg);
      SuppliedMore(e, w.table, w.ctl, w.rcv.reassemble, msg);
    case Finish => SuppliedMore(e, w.table, w.ctl, w.rcv.reassemble, Close(w.snd.bytesTX));
    case SenderDies(_, kept) =>
      SuppliedLess(e, w.table, w.ctl, w.rcv.reassemble, 0, kept, 0);
      assert w.ctl[0..kept] == w.ctl[..kept] && w.rcv.reassemble[0..] == w.rcv.reassemble;
      SuppliedMore(e, w.table, w.ctl[..kept], w.rcv.reassemble, Close(0));
    case _ =>
  }

  lemma SenderCounts(e: Hashing, mode: Mode, w: World, st: Step)
    requires Base(e, w) && Enabled(e, mode, w, st)
    requires st.Read? || st.Send? || st.Eof? || st.Finish? || st.SenderGone? || st.SenderDies?
    ensures var v := Next(e, mode, w, st); CountsOk(w.rcv, v.ctl, w.written, v.snd.bytesTX)
  {
    hide Supplied, SentOk, PendingOk, AcksOk, LateOk, RightMessage, CtlBytes, BytesTotal, Flat, QueueOk, Means, Proper;
    match st
    case Send(m, msg) =>
      RightMeans(e, mode, w.snd, m, msg);
      CtlMore(w.ctl, msg);
    case Finish => CtlMore(w.ctl, Close(w.snd.bytesTX));
    case SenderDies(_, kept) =>
      CtlLess(w.ctl, kept);
      CtlMore(w.ctl[..kept], Close(0));
    case _ =>
  }

  lemma SenderSent(e: Hashing, mode: Mode, w: World, st: Step)
    requires Base(e, w) && Enabled(e, mode, w, st)
    requires st.Read? || st.Send? || st.Eof? || st.Finish? || st.SenderGone? || st.SenderDies?
    ensures var v := Next(e, mode, w, st); SentOk(v.snd, v.sent, v.stream)
  {
    hide Supplied, PendingOk, CountsOk, AcksOk, LateOk, RightMessage, Flat;
    match st
    case Send(m, msg) => ConsumeOk(w.snd, w.sent, w.stream, m, mode.chunking);
    case _ =>
  }

  lemma SenderLate(e: Hashing, mode: Mode, w: World, st: Step)
    requires Inv(e, mode, w) && Enabled(e, mode, w, st)
    requires st.Read? || st.Send? || st.Eof? || st.Finish? || st.SenderGone? || st.SenderDies?
    ensures LateOk(Next(e, mode, w, st))
  {
    hide Supplied, PendingOk, CountsOk, AcksOk, RightMessage, Flat, Late, Warned, Ordered, IsPrefix, BlocksOk;
    if Announced(w) {
      AnnouncedDone(e, mode, w);
    }
    match st
    case Send(m, msg) =>
      SendKind(e, mode, w, m, msg);
      LateSend(e, mode, w, m, msg);
    case Finish => LateFinish(e, mode, w);
    case SenderDies(abnormal, kept) =>
      if abnormal {
        LateDies(e, mode, w, kept);
      }
    case _ =>
  }

  lemma SendKind(e: Hashing, mode: Mode, w: World, m: nat, msg: Msg)
    requires Enabled(e, mode, w, Send(m, msg))
    ensures !msg.Close?
  {
  }

  lemma AckBase(e: Hashing, mode: Mode, w: World)
    requires Base(e, w) && Enabled(e, mode, w, Ack)
    ensures Base(e, Next(e, mode, w, Ack))
  {
    hide Supplied, SentOk, PendingOk, AcksOk, Late, Warned, Flat, QueueOk, CtlBytes, BytesTotal, Acked;
    AckPopped(w.snd.lastAcked, w.acks, w.rcv.bytesRX);
    AckedOk(w.snd, w.sent, w.stream, w.acks[0]);
    AckedShape(w.snd, w.acks[0]);
  }

  lemma DeliverBase(e: Hashing, mode: Mode, w: World, kept: nat)
    requires Base(e, w) && Enabled(e, mode, w, Deliver(kept))
    ensures Base(e, Next(e, mode, w, Deliver(kept)))
  {
    hide Supplied, SentOk, PendingOk, CountsOk, AcksOk, LateOk, Stored, NamesOf, MsgBytes;
    SuppliedReceive(e, w.table, w.ctl, w.rcv);
    HeadProper(e, w.table, w.ctl, w.rcv.reassemble);
    CountsReceive(e, w.rcv, w.ctl, w.written, w.snd.bytesTX);
    FewerAcks(w.snd.lastAcked, w.acks, w.rcv.bytesRX, !w.rcv.gone && w.rcv.life == Open && w.ctl[0] == Close(0), kept);
    LateDeliver(e, mode, w, kept);
  }

  lemma HeadProper(e: Hashing, t: Table, ctl: seq<Msg>, ls: seq<seq<ChunkNameInfo>>)
    requires Supplied(e, t, ctl, ls) && ctl != []
    ensures Proper(e, ctl[0])
  {
    hide Proper, Fine;
  }

  lemma RebuildBase(e: Hashing, mode: Mode, w: World)
    requires e.Injective() && Base(e, w) && Enabled(e, mode, w, Rebuilds)
    ensures Base(e, Next(e, mode, w, Rebuilds))
  {
    hide Supplied, SentOk, PendingOk, CountsOk, AcksOk, Late, Warned, Blocks, Available, Released, Hashing.Injective;
    var l := w.rcv.reassemble[0];
    FirstFine(e, w.table, w.ctl, w.rcv.reassemble);
    FineRebuilt(e, l, w.table);
    CountsRebuild(e, w.rcv, w.ctl, w.written, w.snd.bytesTX, Blocks(w.table, l, |l|));
    ReleasedTrusts(e, w.table, l);
    SuppliedLess(e, w.table, w.ctl, w.rcv.reassemble, 0, |w.ctl|, 1);
    assert w.ctl[0..|w.ctl|] == w.ctl;
    SuppliedTable(e, w.table, Released(w.table, l, |l|), w.ctl, w.rcv.reassemble[1..]);
  }

  lemma FirstFine(e: Hashing, t: Table, ctl: seq<Msg>, ls: seq<seq<ChunkNameInfo>>)
    requires Supplied(e, t, ctl, ls) && ls != []
    ensures e.Trusts(t) && Fine(e, ls[0])
  {
    hide Proper, Fine, Hashing.Trusts;
  }

  lemma WritesBase(e: Hashing, mode: Mode, w: World, os: seq<Outcome>, event: bool, kept: nat)
    requires Inv(e, mode, w) && Enabled(e, mode, w, Writes(os, event, kept))
    ensures Base(e, Next(e, mode, w, Writes(os, event, kept)))
  {
    hide Supplied, SentOk, PendingOk, CountsOk, AcksOk, LateOk, Ordered, WriteLoop, Wrote, QueueOk, AfterWrite;
    hide IsPrefix;
    var v := WriteLoop(WriteStart(w.rcv), os);
    WriteLoopWrote(WriteStart(w.rcv), os);
    CountsWritten(w.rcv, w.ctl, w.written, w.snd.bytesTX, v, event);
    FewerAcks(w.snd.lastAcked, w.acks, w.rcv.bytesRX, v.failed && w.rcv.life == Open, kept);
    WrittenAcks(w.rcv, v, event, w.snd.lastAcked, AcksLeft(w.acks, v.failed && w.rcv.life == Open, kept));
    WrittenShape(w.rcv, v, event);
    WritesLate(e, mode, w, v, event, kept);
  }

  lemma WrittenAcks(r: RecvSide, v: Writing, event: bool, lastAcked: nat, acks: seq<nat>)
    requires AcksOk(lastAcked, acks, r.bytesRX)
    ensures var (s, a) := AfterWrite(r, v, event); AcksOk(lastAcked, acks + a, s.bytesRX)
  {
    hide AcksOk;
    AckAppended(lastAcked, acks, r.bytesRX, r.bytesRX + v.bytesSent);
    assert acks + [] == acks;
  }

  lemma WrittenShape(r: RecvSide, v: Writing, event: bool)
    ensures var s := AfterWrite(r, v, event).0;
            && s.reassemble == r.reassemble && s.pendingNames == r.pendingNames && s.pendingBytes == r.pendingBytes
            && s.gone == r.gone && s.closeBytes == r.closeBytes && (PendingOk(r) ==> PendingOk(s))
            && (r.life != Open ==> s.life == r.life)
            && (s.life == ClosedOnTotal ==> r.life == ClosedOnTotal || r.closeBytes != 0)
  {
  }

  lemma WritesLate(e: Hashing, mode: Mode, w: World, v: Writing, event: bool, kept: nat)
    requires LateOk(w) && kept <= |w.acks|
    ensures var (r, a) := AfterWrite(w.rcv, v, event);
            LateOk(w.(rcv := r, acks := AcksLeft(w.acks, v.failed && w.rcv.life == Open, kept) + a,
                      written := w.written + v.out))
  {
    hide Late, Warned, AfterWrite;
    WrittenShape(w.rcv, v, event);
  }

  lemma OtherBase(e: Hashing, mode: Mode, w: World, st: Step)
    requires Base(e, w) && Enabled(e, mode, w, st)
    requires st.Check? || st.ReceiverDies? || st.ReceiverGone? || st.Arrives? || st.Releases?
    ensures Base(e, Next(e, mode, w, st))
  {
    hide Supplied, SentOk, AcksOk, Late, Warned, Flat, QueueOk, CtlBytes, BytesTotal, NamesTotal, Put, Released;
    hide Available;
    hide Hashing.Trusts;
    match st
    case ReceiverDies(abnormal, kept) => FewerAcks(w.snd.lastAcked, w.acks, w.rcv.bytesRX, abnormal, kept);
    case Arrives(block) =>
      TableTrusted(e, w.table, w.ctl, w.rcv.reassemble);
      PutTrusts(e, w.table, e.sha(block), block);
      SuppliedTable(e, w.table, Put(w.table, e.sha(block), block), w.ctl, w.rcv.reassemble);
    case Releases(l) =>
      TableTrusted(e, w.table, w.ctl, w.rcv.reassemble);
      ReleasedTrusts(e, w.table, l);
      SuppliedTable(e, w.table, Released(w.table, l, |l|), w.ctl, w.rcv.reassemble);
    case _ =>
  }

  lemma TableTrusted(e: Hashing, t: Table, ctl: seq<Msg>, ls: seq<seq<ChunkNameInfo>>)
    requires Supplied(e, t, ctl, ls)
    ensures e.Trusts(t)
  {
  }

  lemma StepBase(e: Hashing, mode: Mode, w: World, st: Step)
    requires e.Injective() && Inv(e, mode, w) && Enabled(e, mode, w, st)
    ensures Base(e, Next(e, mode, w, st))
  {
    hide Base, Ordered, Next, Enabled, Hashing.Injective, IsPrefix;
    match st
    case Ack => AckBase(e, mode, w);
    case Deliver(kept) => DeliverBase(e, mode, w, kept);
    case Rebuilds => RebuildBase(e, mode, w);
    case Writes(os, event, kept) => WritesBase(e, mode, w, os, event, kept);
    case Check => OtherBase(e, mode, w, st);
    case ReceiverDies(_, _) => OtherBase(e, mode, w, st);
    case ReceiverGone => OtherBase(e, mode, w, st);
    case Arrives(_) => OtherBase(e, mode, w, st);
    case Releases(_) => OtherBase(e, mode, w, st);
    case _ => SenderBase(e, mode, w, st);
  }

  // ---------------------------------------------------------------- the order of the blocks

  lemma SendChannel(e: Hashing, ctl: seq<Msg>, flight: nat, sent: seq<seq<Byte>>, d: nat, msg: Msg, block: seq<Byte>)
    requires ChannelOk(e, ctl, flight, sent, d)
    ensures ChannelOk(e, ctl + [msg], flight, sent + [block], d)
    ensures flight == |ctl| && d + flight == |sent| && Means(e, msg, block) ==>
              ChannelOk(e, ctl + [msg], flight + 1, sent + [block], d)
  {
    hide Means;
  }

  lemma ListsKept(e: Hashing, ls: seq<seq<ChunkNameInfo>>, sent: seq<seq<Byte>>, a: nat, block: seq<Byte>)
    requires ListsOk(e, ls, sent, a)
    ensures ListsOk(e, ls, sent + [block], a)
  {
    hide Describes;
  }

  lemma StreamKept(r: RecvSide, written: seq<Byte>, sent: seq<seq<Byte>>, a: nat, block: seq<Byte>)
    requires StreamOk(r, written, sent, a)
    ensures StreamOk(r, written, sent + [block], a)
  {
    assert (sent + [block])[..a] == sent[..a];
  }

  lemma SendQueues(e: Hashing, mode: Mode, w: World, m: nat, msg: Msg)
    requires Base(e, w) && Ordered(e, mode, w) && Enabled(e, mode, w, Send(m, msg)) && !w.rcv.gone
    ensures QueuesOk(e, mode, Next(e, mode, w, Send(m, msg)))
  {
    hide ChannelOk, ListsOk, StreamOk, Supplied, SentOk, CountsOk, AcksOk, ClosingOk, PendingOk, Means, RightMessage;
    hide Late;
    hide Warned, Proper;
    RightMeans(e, mode, w.snd, m, msg);
    SendChannel(e, w.ctl, w.flight, w.sent, w.entered + |w.rcv.reassemble|, msg, w.snd.input[..m]);
  }

  lemma SendOrdered(e: Hashing, mode: Mode, w: World, m: nat, msg: Msg)
    requires Base(e, w) && Ordered(e, mode, w) && Enabled(e, mode, w, Send(m, msg))
    ensures Ordered(e, mode, Next(e, mode, w, Send(m, msg)))
  {
    hide QueuesOk, ListsOk, StreamOk, Supplied, SentOk, CountsOk, AcksOk, PendingOk, RightMessage, Late, Warned;
    SendKind(e, mode, w, m, msg);
    if !w.rcv.gone {
      SendQueues(e, mode, w, m, msg);
    }
    ListsKept(e, w.rcv.reassemble, w.sent, w.entered, w.snd.input[..m]);
    StreamKept(w.rcv, w.written, w.sent, w.entered, w.snd.input[..m]);
    var v := Next(e, mode, w, Send(m, msg));
    assert forall j :: 0 <= j < |w.ctl| ==> v.ctl[j] == w.ctl[j];
  }

  lemma FinishOrdered(e: Hashing, mode: Mode, w: World)
    requires Base(e, w) && Ordered(e, mode, w) && Enabled(e, mode, w, Finish)
    ensures Ordered(e, mode, Next(e, mode, w, Finish))
  {
    hide ListsOk, StreamOk, Supplied, CountsOk, AcksOk, PendingOk, Late, Warned, Means, Flat, BlocksOk;
    var v := Next(e, mode, w, Finish);
    assert forall j :: 0 <= j < |w.ctl| ==> v.ctl[j] == w.ctl[j];
  }

  lemma DiesOrdered(e: Hashing, mode: Mode, w: World, abnormal: bool, kept: nat)
    requires Base(e, w) && Ordered(e, mode, w) && Enabled(e, mode, w, SenderDies(abnormal, kept))
    ensures Ordered(e, mode, Next(e, mode, w, SenderDies(abnormal, kept)))
  {
    hide ListsOk, StreamOk, Supplied, SentOk, CountsOk, AcksOk, PendingOk, Late, Warned, Means, Flat;
    var v := Next(e, mode, w, SenderDies(abnormal, kept));
    assert forall j :: 0 <= j < kept ==> v.ctl[j] == w.ctl[j];
  }

  /** Reading, the end of the stream, acknowledgements and the clean-up of the sender. */
  lemma SenderOrdered(e: Hashing, mode: Mode, w: World, st: Step)
    requires Base(e, w) && Ordered(e, mode, w) && Enabled(e, mode, w, st)
    requires st.Read? || st.Eof? || st.Ack? || st.SenderGone?
    ensures Ordered(e, mode, Next(e, mode, w, st))
  {
    hide ListsOk, StreamOk, ChannelOk, Supplied, SentOk, CountsOk, AcksOk, PendingOk, LateOk, Acked;
    if st.Ack? {
      AckedShape(w.snd, w.acks[0]);
    }
  }

  // ---------------------------------------------------------------- the receiver takes blocks in order

  lemma ChannelPopped(e: Hashing, ctl: seq<Msg>, flight: nat, sent: seq<seq<Byte>>, d: nat)
    requires ChannelOk(e, ctl, flight, sent, d) && ctl != []
    ensures d + flight <= |sent|
    ensures flight > 0 ==>
              Means(e, ctl[0], sent[d]) && !ctl[0].Close? && ChannelOk(e, ctl[1..], flight - 1, sent, d + 1)
    ensures flight == 0 ==> ChannelOk(e, ctl[1..], 0, sent, d)
  {
    if flight > 0 {
      assert Means(e, ctl[0], sent[d + 0]);
      forall j | 0 <= j < flight - 1 ensures Means(e, ctl[1..][j], sent[d + 1 + j]) {
        assert Means(e, ctl[j + 1], sent[d + (j + 1)]);
      }
    }
  }

  lemma ListAppended(e: Hashing, ls: seq<seq<ChunkNameInfo>>, sent: seq<seq<Byte>>, a: nat, l: seq<ChunkNameInfo>)
    requires ListsOk(e, ls, sent, a) && a + |ls| < |sent| && Describes(e, l, sent[a + |ls|])
    ensures ListsOk(e, ls + [l], sent, a)
  {
    hide Describes;
  }

  lemma NoLists(e: Hashing, sent: seq<seq<Byte>>, a: nat)
    requires a <= |sent|
    ensures ListsOk(e, [], sent, a)
  {
  }

  lemma EnqueueStream(r: RecvSide, written: seq<Byte>, sent: seq<seq<Byte>>, a: nat)
    requires StreamOk(r, written, sent, a) && a < |sent| && sent[a] != []
    ensures StreamOk(Enqueue(r, sent[a]), written, sent, a + 1)
  {
    FlatExtend(sent, a);
    FlatAppend(r.writeQ, sent[a]);
    var f, o, b := Flat(r.writeQ), r.firstMsgOffset, sent[a];
    assert (f + b)[o..] == f[o..] + b;
    assert written + (f[o..] + b) == written + f[o..] + b;
  }

  /** Reaching the announced total means that everything has been written. */
  lemma AllWritten(e: Hashing, mode: Mode, w: World)
    requires Base(e, w) && Ordered(e, mode, w) && w.rcv.life == Open && w.rcv.bytesRX == w.snd.bytesTX
    ensures w.written == Flat(w.sent) && w.rcv.writeQ == [] && w.rcv.reassemble == [] && w.entered == |w.sent|
  {
    hide QueuesOk, Supplied, AcksOk, PendingOk, ClosingOk, CompleteOk, Describes, CountsOk, LateOk;
    FlatPrefix(w.sent, w.entered);
    if w.rcv.writeQ != [] {
      FlatPositive(w.rcv.writeQ);
    }
    assert w.sent[..|w.sent|] == w.sent;
  }

  /** Once closed on the total, no block is on its way. */
  lemma NothingLeft(e: Hashing, mode: Mode, w: World)
    requires Base(e, w) && Ordered(e, mode, w) && w.rcv.life == ClosedOnTotal
    ensures w.entered == |w.sent|
  {
    hide QueuesOk, Supplied, AcksOk, PendingOk, CompleteOk, Describes, CountsOk, LateOk, SenderOk, ListsOk;
    FlatPrefix(w.sent, w.entered);
    assert Flat([]) == [];
  }

  /** Dropping the head of the channel keeps what is known about announcements. */
  lemma ClosingPopped(w: World, v: World)
    requires ClosingOk(w) && w.ctl != [] && v.ctl == w.ctl[1..] && v.snd == w.snd && v.sent == w.sent
    requires v.written == w.written
    requires v.rcv.closeBytes == w.rcv.closeBytes && v.rcv.life == w.rcv.life
    requires v.rcv.life == ClosedOnTotal ==> v.rcv == w.rcv
    ensures ClosingOk(v)
  {
    forall j | 0 <= j < |v.ctl| ensures v.ctl[j] == w.ctl[j + 1] {
    }
  }

  lemma DeliverGone(e: Hashing, mode: Mode, w: World, kept: nat)
    requires Base(e, w) && Ordered(e, mode, w) && Enabled(e, mode, w, Deliver(kept)) && w.rcv.gone
    ensures Ordered(e, mode, Next(e, mode, w, Deliver(kept)))
  {
    hide Base, ListsOk, QueuesOk, StreamOk, ClosingOk, Stored;
    ClosingPopped(w, Next(e, mode, w, Deliver(kept)));
  }

  lemma DeliverRawQueues(e: Hashing, mode: Mode, w: World, kept: nat)
    requires Base(e, w) && Ordered(e, mode, w) && Enabled(e, mode, w, Deliver(kept))
    requires !w.rcv.gone && w.ctl[0].Raw? && w.flight > 0
    ensures w.rcv.reassemble == [] && w.entered < |w.sent| && w.ctl[0].data == w.sent[w.entered]
    ensures QueuesOk(e, mode, Next(e, mode, w, Deliver(kept)))
  {
    hide Base, ListsOk, ChannelOk, StreamOk, ClosingOk, CompleteOk;
    ChannelPopped(e, w.ctl, w.flight, w.sent, w.entered + |w.rcv.reassemble|);
    assert w.rcv.reassemble == [];
    var v := Next(e, mode, w, Deliver(kept));
    assert forall j :: 0 <= j < v.flight ==> v.ctl[j] == w.ctl[j + 1];
  }

  lemma DeliverRaw(e: Hashing, mode: Mode, w: World, kept: nat)
    requires Base(e, w) && Ordered(e, mode, w) && Enabled(e, mode, w, Deliver(kept))
    requires !w.rcv.gone && w.ctl[0].Raw? && w.flight > 0
    ensures Ordered(e, mode, Next(e, mode, w, Deliver(kept)))
  {
    hide Supplied, CountsOk, LateOk, QueuesOk, StreamOk, AcksOk, ClosingOk, PendingOk, Flat, SenderOk, ListsOk;
    DeliverRawQueues(e, mode, w, kept);
    NoLists(e, w.sent, w.entered + 1);
    if w.rcv.life == ClosedOnTotal {
      NothingLeft(e, mode, w);
    }
    EnqueueStream(w.rcv, w.written, w.sent, w.entered);
    ClosingPopped(w, Next(e, mode, w, Deliver(kept)));
  }

  lemma DeliverNamesQueues(e: Hashing, mode: Mode, w: World, kept: nat)
    requires Base(e, w) && Ordered(e, mode, w) && Enabled(e, mode, w, Deliver(kept))
    requires !w.rcv.gone && w.ctl[0].Names? && w.flight > 0
    ensures w.entered < |w.sent|
    ensures var v := Next(e, mode, w, Deliver(kept));
            QueuesOk(e, mode, v) && ListsOk(e, v.rcv.reassemble, v.sent, v.entered)
  {
    hide Base, ListsOk, ChannelOk, StreamOk, ClosingOk, CompleteOk, Describes, NamesOf, Stored, Offset;
    ChannelPopped(e, w.ctl, w.flight, w.sent, w.entered + |w.rcv.reassemble|);
    ListAppended(e, w.rcv.reassemble, w.sent, w.entered, NamesOf(w.ctl[0].entries));
    var v := Next(e, mode, w, Deliver(kept));
    assert forall j :: 0 <= j < v.flight ==> v.ctl[j] == w.ctl[j + 1];
  }

  lemma DeliverNames(e: Hashing, mode: Mode, w: World, kept: nat)
    requires Base(e, w) && Ordered(e, mode, w) && Enabled(e, mode, w, Deliver(kept))
    requires !w.rcv.gone && w.ctl[0].Names? && w.flight > 0
    ensures Ordered(e, mode, Next(e, mode, w, Deliver(kept)))
  {
    hide Base, QueuesOk, ListsOk, StreamOk, ClosingOk, NamesOf, Stored, Offset;
    DeliverNamesQueues(e, mode, w, kept);
    if w.rcv.life == ClosedOnTotal {
      NothingLeft(e, mode, w);
    }
    var v := Next(e, mode, w, Deliver(kept));
    StreamIgnores(w.rcv, v.rcv, w.written, w.sent, w.entered);
    ClosingPopped(w, v);
  }

  lemma CloseTotal(e: Hashing, mode: Mode, w: World)
    requires ClosingOk(w) && w.ctl != [] && w.ctl[0].Close? && w.ctl[0].total != 0
    ensures w.ctl[0].total == w.snd.bytesTX && w.snd.eof && w.snd.input == []
    ensures w.snd.status == FinSent || w.snd.status == Done || w.snd.status == Closed
  {
    assert Announced(w);
  }

  /** Closing leaves everything but the life of the receiver as it is. */
  lemma DeadOrdered(e: Hashing, mode: Mode, w: World, l: Life)
    requires Base(e, w) && Ordered(e, mode, w) && l != Open && (l == ClosedOnTotal ==> w.rcv.bytesRX == w.snd.bytesTX)
    requires l == ClosedOnTotal ==> w.snd.eof && w.snd.input == []
    requires l == ClosedOnTotal ==> w.snd.status == FinSent || w.snd.status == Done || w.snd.status == Closed
    ensures Ordered(e, mode, w.(rcv := Dead(w.rcv, l)))
  {
    hide Supplied, SentOk, CountsOk, AcksOk, PendingOk, LateOk, ListsOk, ChannelOk, Flat, QueueOk;
    if l == ClosedOnTotal && w.rcv.life == Open {
      AllWritten(e, mode, w);
    }
  }

  lemma CloseOff(e: Hashing, mode: Mode, w: World, acks: seq<nat>)
    requires Base(e, w) && Ordered(e, mode, w) && w.ctl != [] && w.ctl[0].Close? && !w.rcv.gone
    ensures w.flight == 0 && Ordered(e, mode, w.(ctl := w.ctl[1..], acks := acks))
  {
    hide Base, ListsOk, ChannelOk, StreamOk, ClosingOk;
    ClosingPopped(w, w.(ctl := w.ctl[1..], acks := acks));
    ChannelPopped(e, w.ctl, w.flight, w.sent, w.entered + |w.rcv.reassemble|);
  }

  /** The same world with a Close taken off still satisfies what the closing test needs. */
  lemma CloseOffWritten(e: Hashing, mode: Mode, w: World)
    requires Base(e, w) && Ordered(e, mode, w) && w.ctl != [] && w.ctl[0].Close? && !w.rcv.gone
    requires w.ctl[0].total != 0 && w.rcv.bytesRX == w.ctl[0].total && w.rcv.life == Open
    ensures w.written == Flat(w.sent) && w.rcv.writeQ == [] && w.rcv.reassemble == []
    ensures w.snd.eof && w.snd.input == []
    ensures w.snd.status == FinSent || w.snd.status == Done || w.snd.status == Closed
  {
    hide Base, ListsOk, QueuesOk, StreamOk, CompleteOk;
    CloseTotal(e, mode, w);
    AllWritten(e, mode, w);
  }

  lemma DeliverClose(e: Hashing, mode: Mode, w: World, kept: nat)
    requires Base(e, w) && Ordered(e, mode, w) && Enabled(e, mode, w, Deliver(kept)) && !w.rcv.gone && w.ctl[0].Close?
    ensures Ordered(e, mode, Next(e, mode, w, Deliver(kept)))
  {
    hide Base, ListsOk, ChannelOk, Flat, QueueOk;
    var v := Next(e, mode, w, Deliver(kept));
    CloseOff(e, mode, w, v.acks);
    if w.ctl[0].total != 0 {
      CloseTotal(e, mode, w);
      if w.rcv.bytesRX == w.ctl[0].total && w.rcv.life == Open {
        CloseOffWritten(e, mode, w);
      }
    }
  }

  // ---------------------------------------------------------------- rebuilding and writing in order

  lemma ListPopped(e: Hashing, ls: seq<seq<ChunkNameInfo>>, sent: seq<seq<Byte>>, a: nat)
    requires ListsOk(e, ls, sent, a) && ls != []
    ensures a < |sent| && Describes(e, ls[0], sent[a]) && ListsOk(e, ls[1..], sent, a + 1)
  {
    hide Describes;
    assert Describes(e, ls[0], sent[a + 0]);
    forall i | 0 <= i < |ls| - 1 ensures Describes(e, ls[1..][i], sent[a + 1 + i]) {
      assert Describes(e, ls[i + 1], sent[a + (i + 1)]);
    }
  }

  /** The bytes rebuilt are the next block sent. */
  lemma RebuiltNext(e: Hashing, mode: Mode, w: World)
    requires e.Injective() && Base(e, w) && Ordered(e, mode, w) && Enabled(e, mode, w, Rebuilds)
    ensures w.entered < |w.sent|
    ensures Blocks(w.table, w.rcv.reassemble[0], |w.rcv.reassemble[0]|) == w.sent[w.entered] != []
    ensures ListsOk(e, w.rcv.reassemble[1..], w.sent, w.entered + 1)
  {
    hide SenderOk, ListsOk, QueuesOk, StreamOk, PendingOk, AcksOk, ClosingOk, Describes, CompleteOk, CountsOk, LateOk;
    hide Available, Hashing.Trusts, Hashing.Injective;
    TableTrusted(e, w.table, w.ctl, w.rcv.reassemble);
    ListPopped(e, w.rcv.reassemble, w.sent, w.entered);
    Rebuilt(e, w.rcv.reassemble[0], w.sent[w.entered], w.table);
  }

  lemma RebuildOrdered(e: Hashing, mode: Mode, w: World)
    requires e.Injective() && Base(e, w) && Ordered(e, mode, w) && Enabled(e, mode, w, Rebuilds)
    ensures Ordered(e, mode, Next(e, mode, w, Rebuilds))
  {
    hide Base, ListsOk, ChannelOk, StreamOk, Flat, Blocks, Available, Released;
    RebuiltNext(e, mode, w);
    var r := w.rcv.(reassemble := w.rcv.reassemble[1..], pendingNames := w.rcv.pendingNames - |w.rcv.reassemble[0]|,
                    pendingBytes := w.rcv.pendingBytes - |w.sent[w.entered]|);
    StreamIgnores(w.rcv, r, w.written, w.sent, w.entered);
    EnqueueStream(r, w.written, w.sent, w.entered);
  }

  lemma StreamIgnores(r: RecvSide, r': RecvSide, written: seq<Byte>, sent: seq<seq<Byte>>, a: nat)
    requires StreamOk(r, written, sent, a)
    requires r'.writeQ == r.writeQ && r'.firstMsgOffset == r.firstMsgOffset && r'.lenWrite == r.lenWrite
    requires r'.bytesRX == r.bytesRX && r'.life == r.life
    ensures StreamOk(r', written, sent, a)
  {
  }

  /** Writing moves bytes from the queue to the socket and counts whole messages. */
  lemma WriteStream(r: RecvSide, written: seq<Byte>, sent: seq<seq<Byte>>, a: nat, v: Writing, event: bool)
    requires StreamOk(r, written, sent, a) && Wrote(WriteStart(r), v)
    ensures StreamOk(AfterWrite(r, v, event).0, written + v.out, sent, a)
  {
    var f := Flat(v.q)[v.offset..];
    assert v.out + f == [] + Flat(r.writeQ)[r.firstMsgOffset..];
    assert written + (v.out + f) == written + v.out + f;
  }

  lemma WritesOrdered(e: Hashing, mode: Mode, w: World, os: seq<Outcome>, event: bool, kept: nat)
    requires Base(e, w) && Ordered(e, mode, w) && Enabled(e, mode, w, Writes(os, event, kept))
    ensures Ordered(e, mode, Next(e, mode, w, Writes(os, event, kept)))
  {
    hide Base, ListsOk, QueuesOk, StreamOk, ClosingOk, WriteLoop, Wrote, QueueOk, AfterWrite;
    var v := WriteLoop(WriteStart(w.rcv), os);
    WriteLoopWrote(WriteStart(w.rcv), os);
    WriteStream(w.rcv, w.written, w.sent, w.entered, v, event);
    WrittenShape(w.rcv, v, event);
    WritesQueues(e, mode, w, os, event, kept);
    WritesClosing(e, mode, w, v, os, event, kept);
  }

  lemma WritesQueues(e: Hashing, mode: Mode, w: World, os: seq<Outcome>, event: bool, kept: nat)
    requires Enabled(e, mode, w, Writes(os, event, kept)) && QueuesOk(e, mode, w)
    ensures QueuesOk(e, mode, Next(e, mode, w, Writes(os, event, kept)))
  {
    hide ChannelOk, WriteLoop, AfterWrite, QueueOk;
    WrittenShape(w.rcv, WriteLoop(WriteStart(w.rcv), os), event);
  }

  /** A closed connection writes nothing more, and one that closes now has written everything. */
  lemma WritesClosing(e: Hashing, mode: Mode, w: World, v: Writing, os: seq<Outcome>, event: bool, kept: nat)
    requires Base(e, w) && Ordered(e, mode, w) && Enabled(e, mode, w, Writes(os, event, kept))
    requires v == WriteLoop(WriteStart(w.rcv), os) && Wrote(WriteStart(w.rcv), v)
    requires StreamOk(AfterWrite(w.rcv, v, event).0, w.written + v.out, w.sent, w.entered)
    ensures ClosingOk(Next(e, mode, w, Writes(os, event, kept)))
  {
    hide Base, ListsOk, QueuesOk, StreamOk, CompleteOk, AfterWrite, Wrote, QueueOk, WriteLoop, Flat;
    WrittenShape(w.rcv, v, event);
    if w.rcv.life == ClosedOnTotal {
      NothingWritten(w.rcv, os, event);
      assert w.written + [] == w.written;
    } else if AfterWrite(w.rcv, v, event).0.life == ClosedOnTotal {
      SentTotal(e, w);
      ClosesNow(w.rcv, v, event);
      ListsFit(e, w.rcv.reassemble, w.sent, w.entered);
      PostedWritten(w, v, event);
    }
  }

  lemma NothingWritten(r: RecvSide, os: seq<Outcome>, event: bool)
    requires QueueOk(r.writeQ, r.firstMsgOffset) && r.writeQ == []
    ensures var v := WriteLoop(WriteStart(r), os); v.out == [] && AfterWrite(r, v, event).0 == r
  {
  }

  lemma SentTotal(e: Hashing, w: World)
    requires Base(e, w)
    ensures BlocksOk(w.sent) && w.snd.bytesTX == |Flat(w.sent)|
  {
  }

  lemma ClosesNow(r: RecvSide, v: Writing, event: bool)
    requires r.life != ClosedOnTotal && AfterWrite(r, v, event).0.life == ClosedOnTotal
    ensures r.life == Open && r.closeBytes != 0 && AfterWrite(r, v, event).0.bytesRX == r.closeBytes
    ensures AfterWrite(r, v, event).0.writeQ == v.q && !v.failed
  {
  }

  lemma ListsFit(e: Hashing, ls: seq<seq<ChunkNameInfo>>, sent: seq<seq<Byte>>, a: nat)
    requires ListsOk(e, ls, sent, a)
    ensures a + |ls| <= |sent|
  {
  }

  /** Counting up to everything consumed leaves nothing to write and nothing to rebuild. */
  lemma PostedWritten(w: World, v: Writing, event: bool)
    requires BlocksOk(w.sent) && w.snd.bytesTX == |Flat(w.sent)| && w.entered + |w.rcv.reassemble| <= |w.sent|
    requires StreamOk(AfterWrite(w.rcv, v, event).0, w.written + v.out, w.sent, w.entered)
    requires AfterWrite(w.rcv, v, event).0.bytesRX == w.snd.bytesTX && AfterWrite(w.rcv, v, event).0.writeQ == v.q
    ensures w.written + v.out == Flat(w.sent) && v.q == [] && w.rcv.reassemble == []
  {
    hide AfterWrite;
    FlatPrefix(w.sent, w.entered);
    if v.q != [] {
      FlatPositive(v.q);
    }
    assert w.sent[..|w.sent|] == w.sent;
  }

  lemma CheckOrdered(e: Hashing, mode: Mode, w: World)
    requires Base(e, w) && Ordered(e, mode, w) && Enabled(e, mode, w, Check)
    ensures Ordered(e, mode, Next(e, mode, w, Check))
  {
    hide Base, ListsOk, QueuesOk, StreamOk, CompleteOk;
    if w.rcv.life == Open && w.rcv.closeBytes != 0 && w.rcv.bytesRX == w.rcv.closeBytes {
      assert Announced(w);
      DeadOrdered(e, mode, w, ClosedOnTotal);
    }
  }

  lemma ReceiverDiesOrdered(e: Hashing, mode: Mode, w: World, abnormal: bool, kept: nat)
    requires Base(e, w) && Ordered(e, mode, w) && Enabled(e, mode, w, ReceiverDies(abnormal, kept))
    ensures Ordered(e, mode, Next(e, mode, w, ReceiverDies(abnormal, kept)))
  {
    hide Base, ListsOk, ChannelOk, Flat, QueueOk;
  }

  lemma GoneOrdered(e: Hashing, mode: Mode, w: World)
    requires Base(e, w) && Ordered(e, mode, w) && Enabled(e, mode, w, ReceiverGone)
    ensures Ordered(e, mode, Next(e, mode, w, ReceiverGone))
  {
    hide Base, ListsOk, QueuesOk, Flat, QueueOk;
  }

  lemma TableOrdered(e: Hashing, mode: Mode, w: World, t: Table)
    requires Ordered(e, mode, w)
    ensures Ordered(e, mode, w.(table := t))
  {
    hide ListsOk, ChannelOk, StreamOk;
  }

  lemma StepOrdered(e: Hashing, mode: Mode, w: World, st: Step)
    requires e.Injective() && Base(e, w) && Ordered(e, mode, w) && Enabled(e, mode, w, st)
    requires !Next(e, mode, w, st).strayed
    ensures Ordered(e, mode, Next(e, mode, w, st))
  {
    hide Base, Ordered, Hashing.Injective, RightMessage, Put, Released, Blocks, WriteLoop, AfterWrite, Receive, Stored;
    match st
    case Send(m, msg) => SendOrdered(e, mode, w, m, msg);
    case Finish => FinishOrdered(e, mode, w);
    case SenderDies(abnormal, kept) => DiesOrdered(e, mode, w, abnormal, kept);
    case Deliver(kept) =>
      if w.rcv.gone {
        DeliverGone(e, mode, w, kept);
      } else {
        match w.ctl[0]
        case Names(_) => DeliverNames(e, mode, w, kept);
        case Raw(_) => DeliverRaw(e, mode, w, kept);
        case Close(_) => DeliverClose(e, mode, w, kept);
      }
    case Rebuilds => RebuildOrdered(e, mode, w);
    case Writes(os, event, kept) => WritesOrdered(e, mode, w, os, event, kept);
    case Check => CheckOrdered(e, mode, w);
    case ReceiverDies(abnormal, kept) => ReceiverDiesOrdered(e, mode, w, abnormal, kept);
    case ReceiverGone => GoneOrdered(e, mode, w);
    case Arrives(block) => TableOrdered(e, mode, w, Put(w.table, e.sha(block), block));
    case Releases(l) => TableOrdered(e, mode, w, Released(w.table, l, |l|));
    case _ => SenderOrdered(e, mode, w, st);
  }

  // ---------------------------------------------------------------- every run

  /** The bytes given to the socket are a prefix of the bytes consumed. */
  lemma WrittenPrefix(e: Hashing, mode: Mode, w: World)
    requires Base(e, w) && Ordered(e, mode, w)
    ensures IsPrefix(w.written, Flat(w.sent)) && IsPrefix(w.written, w.stream)
  {
    hide SenderOk, QueuesOk, AcksOk, ClosingOk, PendingOk, CompleteOk, Supplied, CountsOk, LateOk, ListsOk;
    FlatSplit(w.sent, w.entered);
    var rest := Flat(w.rcv.writeQ)[w.rcv.firstMsgOffset..];
    assert Flat(w.sent) == w.written + rest + Flat(w.sent[w.entered..]);
  }

  /** After late data nothing is written any more, if the receiver died abnormally. */
  lemma StrayStep(e: Hashing, mode: Mode, w: World, st: Step)
    requires e.Injective() && Inv(e, mode, w) && Enabled(e, mode, w, st)
    requires Next(e, mode, w, st).strayed && Next(e, mode, w, st).rcv.life == ClosedOther(true)
    ensures var v := Next(e, mode, w, st); IsPrefix(v.written, v.stream)
  {
    hide Supplied, SentOk, PendingOk, CountsOk, AcksOk, Ordered, Late, Warned, Hashing.Injective, RightMessage, Put;
    hide Released, Blocks, WriteLoop, NamesOf, MsgBytes, Stored;
    var v := Next(e, mode, w, st);
    if !w.strayed {
      WrittenPrefix(e, mode, w);
    }
    assert v.written == w.written;
  }

  /** Every enabled step keeps the invariant. */
  lemma StepKeeps(e: Hashing, mode: Mode, w: World, st: Step)
    requires e.Injective() && Inv(e, mode, w) && Enabled(e, mode, w, st)
    ensures Inv(e, mode, Next(e, mode, w, st))
  {
    hide Base, Ordered, Enabled, Hashing.Injective, IsPrefix;
    StepBase(e, mode, w, st);
    if w.strayed {
      StrayedStays(e, mode, w, st);
    }
    if !Next(e, mode, w, st).strayed {
      StepOrdered(e, mode, w, st);
    } else if Next(e, mode, w, st).rcv.life == ClosedOther(true) {
      StrayStep(e, mode, w, st);
    }
  }

  lemma StrayedStays(e: Hashing, mode: Mode, w: World, st: Step)
    requires Enabled(e, mode, w, st) && w.strayed
    ensures Next(e, mode, w, st).strayed
  {
  }

  lemma InitialInv(e: Hashing, mode: Mode)
    ensures Inv(e, mode, Initial())
  {
    hide Base, Ordered;
    InitialBase(e);
    InitialOrdered(e, mode);
  }

  lemma InitialBase(e: Hashing)
    ensures Base(e, Initial())
  {
    hide Supplied, SentOk, CountsOk, LateOk;
    InitialSupplied(e);
    InitialCounts();
    InitialLate();
  }

  lemma InitialSupplied(e: Hashing)
    ensures Supplied(e, map[], [], [])
  {
  }

  lemma InitialCounts()
    ensures var w := Initial(); SentOk(w.snd, [], []) && CountsOk(w.rcv, [], [], 0)
  {
    hide SentOk, CountsOk;
    EmptySent(Initial().snd, [], []);
    EmptyCounts(Initial().rcv, [], []);
  }

  lemma EmptySent(s: SendSide, sent: seq<seq<Byte>>, stream: seq<Byte>)
    requires s == Initial().snd && sent == [] && stream == []
    ensures SentOk(s, sent, stream)
  {
    hide Flat;
    NothingTotals([], [], sent);
    assert [] + s.input == [];
  }

  lemma EmptyCounts(r: RecvSide, ctl: seq<Msg>, written: seq<Byte>)
    requires r == Initial().rcv && ctl == []
    ensures CountsOk(r, ctl, written, 0)
  {
    hide Flat, BytesTotal, CtlBytes;
    NothingTotals(r.reassemble, ctl, r.writeQ);
  }

  lemma NothingTotals(ls: seq<seq<ChunkNameInfo>>, ctl: seq<Msg>, q: seq<seq<Byte>>)
    requires ls == [] && ctl == [] && q == []
    ensures BytesTotal(ls) == 0 && CtlBytes(ctl) == 0 && Flat(q) == []
  {
  }

  lemma InitialLate()
    ensures LateOk(Initial())
  {
  }

  lemma InitialOrdered(e: Hashing, mode: Mode)
    ensures Ordered(e, mode, Initial())
  {
    hide Describes, Means;
    assert [] + Flat([])[0..] == [];
  }

  /** The steps can be taken one after another. */
  ghost predicate Runs(e: Hashing, mode: Mode, w: World, steps: seq<Step>)
    decreases |steps|
  {
    steps == [] || (Enabled(e, mode, w, steps[0]) && Runs(e, mode, Next(e, mode, w, steps[0]), steps[1..]))
  }

  ghost function After(e: Hashing, mode: Mode, w: World, steps: seq<Step>): World
    requires Runs(e, mode, w, steps)
    decreases |steps|
  {
    if steps == [] then w else After(e, mode, Next(e, mode, w, steps[0]), steps[1..])
  }

  lemma {:induction false} RunKeeps(e: Hashing, mode: Mode, w: World, steps: seq<Step>)
    requires e.Injective() && Inv(e, mode, w) && Runs(e, mode, w, steps)
    ensures Inv(e, mode, After(e, mode, w, steps))
    decreases |steps|
  {
    hide Inv, Next, Enabled, Hashing.Injective;
    if steps != [] {
      StepKeeps(e, mode, w, steps[0]);
      RunKeeps(e, mode, Next(e, mode, w, steps[0]), steps[1..]);
    }
  }

  lemma {:induction false} RunsMore(e: Hashing, mode: Mode, w: World, steps: seq<Step>, st: Step)
    requires Runs(e, mode, w, steps) && Enabled(e, mode, After(e, mode, w, steps), st)
    ensures Runs(e, mode, w, steps + [st])
    ensures After(e, mode, w, steps + [st]) == Next(e, mode, After(e, mode, w, steps), st)
    decreases |steps|
  {
    hide Enabled, Next;
    if steps == [] {
      assert [] + [st] == [st] && [st][1..] == [];
    } else {
      RunsMore(e, mode, Next(e, mode, w, steps[0]), steps[1..], st);
      assert (steps + [st])[1..] == steps[1..] + [st];
    }
  }

  /** The counters are ordered, no byte is counted twice on its way, and the window is never full. */
  ghost predicate CountsSafe(w: World) {
    && (forall i :: 0 <= i < |w.acks| ==> w.snd.lastAcked <= w.acks[i] <= w.rcv.bytesRX)
    && w.snd.lastAcked <= w.rcv.bytesRX <= |w.written| && 0 <= w.rcv.lenWrite
    && w.rcv.bytesRX + w.rcv.lenWrite + BytesTotal(w.rcv.reassemble) + CtlBytes(w.ctl) <= w.snd.bytesTX
    && w.snd.bytesTX == |Flat(w.sent)|
    && w.snd.numSent == w.snd.bytesTX - w.snd.lastAcked && 0 <= w.snd.numSent < MAX_WINDOW_SIZE
    && Unsigned(MAX_WINDOW_SIZE - w.snd.numSent) == MAX_WINDOW_SIZE - w.snd.numSent
    && w.rcv.pendingNames == NamesTotal(w.rcv.reassemble) && w.rcv.pendingBytes == BytesTotal(w.rcv.reassemble)
  }

  /**
   What is written is a prefix of what the user wrote, unless the sender died abnormally and the
   receiver, dead in order, took data sent after that.  A close on the announced total means that all
   the user wrote has been written.  The table holds blocks in play under their own names.
   */
  ghost predicate Safe(e: Hashing, w: World) {
    && CountsSafe(w) && e.Trusts(w.table) && IsPrefix(Flat(w.sent), w.stream)
    && (IsPrefix(w.written, w.stream) || (w.aborted && w.strayed && w.rcv.life == ClosedOther(false)))
    && (w.rcv.life == ClosedOnTotal ==> w.written == w.stream && w.snd.eof)
  }

  /** Every run is safe, under any partial writes, hints, tables and ends of connections. */
  lemma Safety(e: Hashing, mode: Mode, steps: seq<Step>)
    requires e.Injective() && Runs(e, mode, Initial(), steps)
    ensures Safe(e, After(e, mode, Initial(), steps))
  {
    hide Safe, Inv, Hashing.Injective;
    InitialInv(e, mode);
    RunKeeps(e, mode, Initial(), steps);
    InvSafe(e, mode, After(e, mode, Initial(), steps));
  }

  // ---------------------------------------------------------------- the announced total closes

  /** A call of write fails or takes nothing. */
  predicate Broken(os: seq<Outcome>) {
    exists k :: 0 <= k < |os| && (os[k] == Fails || os[k] == Accepts(0))
  }

  /** What else can close a receiver: its own reasons, the announcement of an abnormal end, a failed write. */
  predicate Deadly(w: World, st: Step) {
    || st.ReceiverDies? || (st.Deliver? && w.ctl != [] && w.ctl[0] == Close(0))
    || (st.Writes? && Broken(st.os))
  }

  /** None of this happens. */
  ghost predicate Peaceful(e: Hashing, mode: Mode, w: World, steps: seq<Step>)
    requires Runs(e, mode, w, steps)
    decreases |steps|
  {
    steps == [] || (!Deadly(w, steps[0]) && Peaceful(e, mode, Next(e, mode, w, steps[0]), steps[1..]))
  }

  /** The receiver is closed as complete, or open and holds the announced total t. */
  predicate Awaits(r: RecvSide, t: nat) {
    r.life == ClosedOnTotal || (r.life == Open && !r.gone && r.closeBytes == t)
  }

  lemma FailsNever(w: Writing, os: seq<Outcome>)
    requires QueueOk(w.q, w.offset) && !w.failed && !Broken(os)
    ensures !WriteLoop(w, os).failed
  {
    hide WriteLoop, QueueOk;
    var n := WriteLoopEnds(w, os);
  }

  /** While it is open, a receiver knows no other total than what the sender counts. */
  lemma OpenTotals(e: Hashing, mode: Mode, w: World)
    requires Inv(e, mode, w) && w.rcv.life == Open
    ensures !w.rcv.gone && (w.rcv.closeBytes != 0 ==> w.rcv.closeBytes == w.snd.bytesTX)
    ensures w.ctl != [] && w.ctl[0].Close? && w.ctl[0].total != 0 ==> w.ctl[0].total == w.snd.bytesTX
  {
    hide Supplied, SentOk, PendingOk, CountsOk, AcksOk, Late, Warned, ListsOk, QueuesOk, StreamOk, CompleteOk;
  }

  /** A total is kept as soon as it is taken. */
  lemma TotalTaken(e: Hashing, mode: Mode, w: World, kept: nat)
    requires Inv(e, mode, w) && w.rcv.life == Open && w.ctl != [] && w.ctl[0].Close? && w.ctl[0].total != 0
    requires kept <= |w.acks|
    ensures Enabled(e, mode, w, Deliver(kept))
    ensures Awaits(Next(e, mode, w, Deliver(kept)).rcv, w.ctl[0].total)
  {
    hide Inv;
    OpenTotals(e, mode, w);
  }

  lemma AwaitsStep(e: Hashing, mode: Mode, w: World, st: Step, t: nat)
    requires Inv(e, mode, w) && Enabled(e, mode, w, st) && !Deadly(w, st) && Awaits(w.rcv, t) && t != 0
    ensures Awaits(Next(e, mode, w, st).rcv, t)
  {
    hide Inv, WriteLoop, RightMessage, Available, Released, Blocks, NamesOf, MsgBytes, QueueOk, Broken;
    if w.rcv.life == Open {
      OpenTotals(e, mode, w);
    }
    if st.Writes? {
      FailsNever(WriteStart(w.rcv), st.os);
    }
  }

  lemma {:induction false} AwaitsRun(e: Hashing, mode: Mode, w: World, steps: seq<Step>, t: nat)
    requires e.Injective() && Inv(e, mode, w) && Runs(e, mode, w, steps) && Peaceful(e, mode, w, steps)
    requires Awaits(w.rcv, t) && t != 0
    ensures Awaits(After(e, mode, w, steps).rcv, t) && Inv(e, mode, After(e, mode, w, steps))
    decreases |steps|
  {
    hide Inv, Next, Enabled, Hashing.Injective, Awaits, Deadly;
    if steps != [] {
      StepKeeps(e, mode, w, steps[0]);
      AwaitsStep(e, mode, w, steps[0], t);
      AwaitsRun(e, mode, Next(e, mode, w, steps[0]), steps[1..], t);
    }
  }

  /** The step from u to v reaches the total t in a write event, or finds it reached in the test after rebuilding. */
  predicate Reaches(u: World, st: Step, v: World, t: nat) {
    v.rcv.bytesRX == t && (st.Check? || (st.Writes? && st.event && u.rcv.bytesRX < t))
  }

  lemma ReachedCloses(e: Hashing, mode: Mode, w: World, st: Step, t: nat)
    requires Enabled(e, mode, w, st) && !Deadly(w, st) && Awaits(w.rcv, t) && t != 0
    requires Reaches(w, st, Next(e, mode, w, st), t)
    ensures Next(e, mode, w, st).rcv.life == ClosedOnTotal
  {
    hide WriteLoop, QueueOk, Broken;
    if st.Writes? {
      FailsNever(WriteStart(w.rcv), st.os);
    }
  }

  /**
   In every run in which an open receiver takes the announcement of a nonzero total t, and nothing else
   closes it afterwards, it is closed as complete by the step that reaches t.
   */
  lemma TotalCloses(e: Hashing, mode: Mode, before: seq<Step>, kept: nat, later: seq<Step>, last: Step, t: nat)
    requires e.Injective() && Runs(e, mode, Initial(), before) && t != 0
    requires var w := After(e, mode, Initial(), before);
             w.rcv.life == Open && w.ctl != [] && w.ctl[0] == Close(t) && kept <= |w.acks|
    requires var w1 := Next(e, mode, After(e, mode, Initial(), before), Deliver(kept));
             && Runs(e, mode, w1, later) && Peaceful(e, mode, w1, later)
             && var u := After(e, mode, w1, later);
             Enabled(e, mode, u, last) && !Deadly(u, last) && Reaches(u, last, Next(e, mode, u, last), t)
    ensures var w1 := Next(e, mode, After(e, mode, Initial(), before), Deliver(kept));
            Next(e, mode, After(e, mode, w1, later), last).rcv.life == ClosedOnTotal
  {
    hide Inv, Hashing.Injective, Awaits, Reaches, Runs, After, Deadly, Peaceful;
    InitialInv(e, mode);
    RunKeeps(e, mode, Initial(), before);
    var w := After(e, mode, Initial(), before);
    TotalTaken(e, mode, w, kept);
    StepKeeps(e, mode, w, Deliver(kept));
    var w1 := Next(e, mode, w, Deliver(kept));
    AwaitsRun(e, mode, w1, later, t);
    ReachedCloses(e, mode, After(e, mode, w1, later), last, t);
  }

  lemma BaseCounted(e: Hashing, w: World)
    requires Base(e, w)
    ensures CountsSafe(w) && e.Trusts(w.table) && IsPrefix(Flat(w.sent), w.stream)
  {
    hide LateOk, Proper, Fine, Flat, CtlBytes, QueueOk, Hashing.Trusts;
    NoWrap(w.snd, w.sent);
  }

  lemma InvSafe(e: Hashing, mode: Mode, w: World)
    requires Inv(e, mode, w)
    ensures Safe(e, w)
  {
    hide Base, Ordered, CountsSafe, IsPrefix, Hashing.Trusts;
    BaseCounted(e, w);
    StrayedLate(e, w);
    if !w.strayed {
      WrittenPrefix(e, mode, w);
    }
    if w.rcv.life == ClosedOnTotal {
      ClosedWritten(e, mode, w);
    }
  }

  lemma StrayedLate(e: Hashing, w: World)
    requires Base(e, w)
    ensures w.strayed ==> w.aborted && w.rcv.life.ClosedOther?
  {
  }

  lemma ClosedWritten(e: Hashing, mode: Mode, w: World)
    requires Base(e, w) && Ordered(e, mode, w) && w.rcv.life == ClosedOnTotal
    ensures w.written == w.stream && w.snd.eof
  {
    hide Supplied, CountsOk, AcksOk, LateOk, ListsOk, QueuesOk, StreamOk, CompleteOk, Flat;
    assert Announced(w);
    assert w.snd.input == [] ==> Flat(w.sent) + w.snd.input == Flat(w.sent);
  }

  /** The limit that makes SendDataPrivate give up is never reached by a rebuilt block. */
  lemma WriteBufferNeverFull(e: Hashing, mode: Mode, w: World)
    requires e.Injective() && Base(e, w) && Enabled(e, mode, w, Rebuilds)
    ensures var l := w.rcv.reassemble[0];
            0 < |Blocks(w.table, l, |l|)| && w.rcv.lenWrite + |Blocks(w.table, l, |l|)| < MAX_WINDOW_SIZE
  {
    hide Base, Blocks, Flat, CtlBytes, BytesTotal, NamesTotal, Hashing.Trusts, Released, Available;
    RebuildBase(e, mode, w);
    BaseCounted(e, Next(e, mode, w, Rebuilds));
    RebuiltPositive(e, mode, w);
  }

  lemma RebuiltPositive(e: Hashing, mode: Mode, w: World)
    requires e.Injective() && Base(e, w) && Enabled(e, mode, w, Rebuilds)
    ensures w.rcv.reassemble[0] != [] && 0 < |Blocks(w.table, w.rcv.reassemble[0], |w.rcv.reassemble[0]|)|
  {
    hide Supplied, SentOk, PendingOk, CountsOk, AcksOk, LateOk, Blocks, Available, Hashing.Injective;
    FirstFine(e, w.table, w.ctl, w.rcv.reassemble);
    FineRebuilt(e, w.rcv.reassemble[0], w.table);
  }

  /** Nor by a raw message, whatever the state of the connection. */
  lemma RawNeverFull(e: Hashing, w: World)
    requires Base(e, w) && w.ctl != [] && w.ctl[0].Raw?
    ensures w.ctl[0].data != [] && w.rcv.lenWrite + |w.ctl[0].data| < MAX_WINDOW_SIZE
  {
    hide Base, Flat, BytesTotal, NamesTotal, Hashing.Trusts;
    BaseCounted(e, w);
    HeadData(e, w);
  }

  lemma HeadData(e: Hashing, w: World)
    requires Base(e, w) && w.ctl != []
    ensures Proper(e, w.ctl[0])
  {
    hide SentOk, PendingOk, CountsOk, AcksOk, LateOk, Proper, Fine;
    HeadProper(e, w.table, w.ctl, w.rcv.reassemble);
  }

  // ---------------------------------------------------------------- where a run ends badly

  /** A block sent, and then both sides dead: the receiver in order, the sender abnormally, with the block discarded. */
  function Straying(x: seq<Byte>): seq<Step> {
    [Read(x), Send(|x|, Raw(x)), ReceiverDies(false, 0), SenderDies(true, 0)]
  }

  /** The sender sends what it reads next, and the receiver takes and writes it. */
  function Strayed(y: seq<Byte>): seq<Step> {
    [Read(y), Send(|y|, Raw(y)), Deliver(0), Deliver(0), Writes([Accepts(|y|)], false, 0)]
  }

  /**
   The exception in Safe is real: what is written then is the second block without the first, for any
   two blocks.
   */
  lemma StrayedBreaks(e: Hashing, x: seq<Byte>, y: seq<Byte>)
    requires 0 < |x| <= RECV_BUFSIZE && 0 < |y| <= RECV_BUFSIZE
    ensures var mode := Mode(false, false);
            && Runs(e, mode, Initial(), Straying(x) + Strayed(y))
            && var w := After(e, mode, Initial(), Straying(x) + Strayed(y));
            && w.written == y && w.stream == x + y && w.aborted && w.strayed && w.rcv.life == ClosedOther(false)
            && (y[0] != x[0] ==> !IsPrefix(w.written, w.stream))
  {
    StrayFirst(e, Initial(), x, Straying(x));
    StraySecond(e, BothDead(x), x, y, Strayed(y));
    RunsJoin(e, Mode(false, false), Initial(), Straying(x), Strayed(y));
  }

  /** Both sides are dead, and the block sent is gone. */
  ghost function BothDead(x: seq<Byte>): World {
    World(SendSide([], |x|, |x|, 0, 0, Closed, false, false), [Close(0)],
          RecvSide([], [], 0, 0, 0, 0, 0, 0, ClosedOther(false), false), [], map[], x, [x], 0, 0, [], true, false)
  }

  lemma StrayFirst(e: Hashing, w0: World, x: seq<Byte>, s: seq<Step>)
    requires 0 < |x| <= RECV_BUFSIZE && w0 == Initial() && s == Straying(x)
    ensures Runs(e, Mode(false, false), w0, s) && After(e, Mode(false, false), w0, s) == BothDead(x)
  {
    hide Runs, After;
    var mode := Mode(false, false);
    var w1 := Next(e, mode, w0, s[0]);
    assert w1.snd.input == x && w1.stream == x && x[..|x|] == x && x[|x|..] == [];
    var w2 := Next(e, mode, w1, s[1]);
    assert w2.ctl == [Raw(x)] && w2.sent == [x];
    var w3 := Next(e, mode, w2, s[2]);
    var w4 := Next(e, mode, w3, s[3]);
    assert w4.ctl == [Close(0)];
    RunsNext(e, mode, w4, s[4..]);
    RunsNext(e, mode, w3, s[3..]);
    RunsNext(e, mode, w2, s[2..]);
    RunsNext(e, mode, w1, s[1..]);
    RunsNext(e, mode, w0, s);
  }

  lemma StraySecond(e: Hashing, w0: World, x: seq<Byte>, y: seq<Byte>, s: seq<Step>)
    requires 0 < |y| <= RECV_BUFSIZE && |x| <= RECV_BUFSIZE && w0 == BothDead(x) && s == Strayed(y)
    ensures Runs(e, Mode(false, false), w0, s)
    ensures var w := After(e, Mode(false, false), w0, s);
            w.written == y && w.stream == x + y && w.aborted && w.strayed && w.rcv.life == ClosedOther(false)
  {
    hide Runs, After;
    var mode := Mode(false, false);
    var w1 := Next(e, mode, w0, s[0]);
    assert w1.snd.input == y && y[..|y|] == y;
    var w2 := Next(e, mode, w1, s[1]);
    assert w2.ctl == [Close(0), Raw(y)];
    var w3 := Next(e, mode, w2, s[2]);
    assert w3.ctl == [Raw(y)] && w3.rcv.life == ClosedOther(false);
    var w4 := Next(e, mode, w3, s[3]);
    assert w4.rcv.writeQ == [y] && w4.written == [];
    WritesSingle(e, mode, w4, y);
    RunsNext(e, mode, Next(e, mode, w4, s[4]), s[5..]);
    RunsNext(e, mode, w4, s[4..]);
    RunsNext(e, mode, w3, s[3..]);
    RunsNext(e, mode, w2, s[2..]);
    RunsNext(e, mode, w1, s[1..]);
    RunsNext(e, mode, w0, s);
  }

  /** The first step, and the rest. */
  lemma RunsNext(e: Hashing, mode: Mode, w: World, steps: seq<Step>)
    requires steps != [] ==> Enabled(e, mode, w, steps[0]) && Runs(e, mode, Next(e, mode, w, steps[0]), steps[1..])
    ensures Runs(e, mode, w, steps)
    ensures After(e, mode, w, steps)
            == if steps == [] then w else After(e, mode, Next(e, mode, w, steps[0]), steps[1..])
  {
    hide Enabled, Next;
  }

  lemma {:induction false} RunsJoin(e: Hashing, mode: Mode, w: World, a: seq<Step>, b: seq<Step>)
    requires Runs(e, mode, w, a) && Runs(e, mode, After(e, mode, w, a), b)
    ensures Runs(e, mode, w, a + b) && After(e, mode, w, a + b) == After(e, mode, After(e, mode, w, a), b)
    decreases |a|
  {
    hide Enabled, Next;
    if a == [] {
      assert [] + b == b;
    } else {
      RunsJoin(e, mode, Next(e, mode, w, a[0]), a[1..], b);
      assert (a + b)[1..] == a[1..] + b;
    }
  }

  lemma WritesSingle(e: Hashing, mode: Mode, w: World, y: seq<Byte>)
    requires y != [] && w.rcv.writeQ == [y] && w.rcv.firstMsgOffset == 0 && w.written == []
    requires !w.rcv.gone && w.rcv.life == ClosedOther(false)
    ensures Enabled(e, mode, w, Writes([Accepts(|y|)], false, 0))
    ensures var v := Next(e, mode, w, Writes([Accepts(|y|)], false, 0));
            v.written == y && v.stream == w.stream && v.aborted == w.aborted && v.strayed == w.strayed
            && v.rcv.life == w.rcv.life
  {
    hide WriteLoop;
    WriteOne(w.rcv, y);
  }

  /** The total announced is what the user wrote; it reads as an abnormal end exactly when that is nothing. */
  lemma FinishTotal(e: Hashing, mode: Mode, w: World)
    requires Base(e, w) && Enabled(e, mode, w, Finish)
    ensures Next(e, mode, w, Finish).ctl == w.ctl + [Close(|w.stream|)]
    ensures w.snd.bytesTX == 0 <==> w.stream == []
    ensures forall r: RecvSide :: r.life == Open && !r.gone ==>
              (Receive(r, Close(|w.stream|)).life == ClosedOther(true) <==> w.stream == [])
  {
    hide Supplied, PendingOk, CountsOk, AcksOk, LateOk;
  }

  /**
   A user who ends the stream in order without having written anything: the other side is closed as
   if by an error.
   */
  lemma EmptyStreamAborts(e: Hashing, mode: Mode)
    ensures var steps := [Eof, Finish, SenderDies(false, 0), Deliver(0)];
            && Runs(e, mode, Initial(), steps)
            && var w := After(e, mode, Initial(), steps);
            && w.stream == [] && w.snd.eof && w.snd.bytesTX == 0 && w.rcv.life == ClosedOther(true)
  {
    var w1 := Next(e, mode, Initial(), Eof);
    var w2 := Next(e, mode, w1, Finish);
    var w3 := Next(e, mode, w2, SenderDies(false, 0));
    var steps := [Eof, Finish, SenderDies(false, 0), Deliver(0)];
    assert steps[1..] == [Finish, SenderDies(false, 0), Deliver(0)];
    assert steps[1..][1..] == [SenderDies(false, 0), Deliver(0)];
    assert steps[1..][1..][1..] == [Deliver(0)];
    assert [Deliver(0)][1..] == [];
    assert Runs(e, mode, w3, [Deliver(0)]);
    assert Runs(e, mode, w2, [SenderDies(false, 0), Deliver(0)]);
    assert Runs(e, mode, w1, [Finish, SenderDies(false, 0), Deliver(0)]);
  }

  /** The user writes x and ends the stream. */
  function Speaks(x: seq<Byte>): seq<Step> {
    [Read(x), Send(|x|, Raw(x)), Eof, Finish]
  }

  /** The other side takes block and total, and writes the block; the sender takes the acknowledgement. */
  function Listens(x: seq<Byte>): seq<Step> {
    [Deliver(0), Deliver(0), Writes([Accepts(|x|)], true, 0), Ack]
  }

  /** An orderly end: everything is written, and both sides are closed. */
  lemma OrderlyEnd(e: Hashing, x: seq<Byte>)
    requires 0 < |x| <= RECV_BUFSIZE
    ensures var mode := Mode(false, false);
            && Runs(e, mode, Initial(), Speaks(x) + Listens(x))
            && var w := After(e, mode, Initial(), Speaks(x) + Listens(x));
            w.written == x == w.stream && w.rcv.life == ClosedOnTotal && w.snd.status == Closed
  {
    SpokenTo(e, Initial(), x, Speaks(x));
    ListenedTo(e, Spoken(x), x, Listens(x));
    RunsJoin(e, Mode(false, false), Initial(), Speaks(x), Listens(x));
  }

  ghost function Spoken(x: seq<Byte>): World {
    World(SendSide([], |x|, |x|, 0, 0, FinSent, true, false), [Raw(x), Close(|x|)],
          RecvSide([], [], 0, 0, 0, 0, 0, 0, Open, false), [], map[], x, [x], 0, 1, [], false, false)
  }

  lemma SpokenTo(e: Hashing, w0: World, x: seq<Byte>, s: seq<Step>)
    requires 0 < |x| <= RECV_BUFSIZE && w0 == Initial() && s == Speaks(x)
    ensures Runs(e, Mode(false, false), w0, s) && After(e, Mode(false, false), w0, s) == Spoken(x)
  {
    hide Runs, After;
    var mode := Mode(false, false);
    var w1 := Next(e, mode, w0, s[0]);
    assert w1.snd.input == x && w1.stream == x && x[..|x|] == x && x[|x|..] == [];
    var w2 := Next(e, mode, w1, s[1]);
    assert w2.ctl == [Raw(x)] && w2.sent == [x];
    var w3 := Next(e, mode, w2, s[2]);
    var w4 := Next(e, mode, w3, s[3]);
    assert w4.ctl == [Raw(x), Close(|x|)];
    RunsNext(e, mode, w4, s[4..]);
    RunsNext(e, mode, w3, s[3..]);
    RunsNext(e, mode, w2, s[2..]);
    RunsNext(e, mode, w1, s[1..]);
    RunsNext(e, mode, w0, s);
  }

  lemma ListenedTo(e: Hashing, w0: World, x: seq<Byte>, s: seq<Step>)
    requires 0 < |x| <= RECV_BUFSIZE && w0 == Spoken(x) && s == Listens(x)
    ensures Runs(e, Mode(false, false), w0, s)
    ensures var w := After(e, Mode(false, false), w0, s);
            w.written == x == w.stream && w.rcv.life == ClosedOnTotal && w.snd.status == Closed
  {
    hide Runs, After;
    var mode := Mode(false, false);
    var w1 := Next(e, mode, w0, s[0]);
    assert w1.ctl == [Close(|x|)] && w1.rcv.writeQ == [x];
    var w2 := Next(e, mode, w1, s[1]);
    assert w2.rcv.closeBytes == |x| && w2.rcv.writeQ == [x];
    WritesLast(e, mode, w2, x);
    var w3 := Next(e, mode, w2, s[2]);
    var w4 := Next(e, mode, w3, s[3]);
    RunsNext(e, mode, w4, s[4..]);
    RunsNext(e, mode, w3, s[3..]);
    RunsNext(e, mode, w2, s[2..]);
    RunsNext(e, mode, w1, s[1..]);
    RunsNext(e, mode, w0, s);
  }

  lemma WritesLast(e: Hashing, mode: Mode, w: World, x: seq<Byte>)
    requires x != [] && w.rcv.writeQ == [x] && w.rcv.firstMsgOffset == 0 && w.written == [] && w.acks == []
    requires !w.rcv.gone && w.rcv.life == Open && w.rcv.bytesRX == 0 && w.rcv.closeBytes == |x|
    ensures Enabled(e, mode, w, Writes([Accepts(|x|)], true, 0))
    ensures var v := Next(e, mode, w, Writes([Accepts(|x|)], true, 0));
            v.written == x && v.stream == w.stream && v.rcv.life == ClosedOnTotal && v.acks == [|x|] && v.snd == w.snd
  {
    hide WriteLoop;
    WriteOne(w.rcv, x);
    assert [] + [|x|] == [|x|];
  }

  /** A queue of one message that is taken whole. */
  lemma WriteOne(r: RecvSide, x: seq<Byte>)
    requires x != [] && r.writeQ == [x] && r.firstMsgOffset == 0
    ensures WriteLoop(WriteStart(r), [Accepts(|x|)]) == Writing([], 0, r.lenWrite - |x|, |x|, x, false)
  {
    var os := [Accepts(|x|)];
    assert os[1..] == [] && r.writeQ[1..] == [] && x[0..] == x && [] + x == x;
    assert WriteLoop(Writing([], 0, r.lenWrite - |x|, |x|, x, false), os[1..])
        == Writing([], 0, r.lenWrite - |x|, |x|, x, false);
  }

  /** A full read buffer. */
  function Chunk(): (b: seq<Byte>)
    ensures |b| == RECV_BUFSIZE
  {
    seq(RECV_BUFSIZE, _ => 0)
  }

  /** n full buffers read and sent raw. */
  ghost function Rounds(n: nat): seq<Step> {
    if n == 0 then [] else Rounds(n - 1) + [Read(Chunk())] + [Send(RECV_BUFSIZE, Raw(Chunk()))]
  }

  lemma {:induction false} RoundsRun(e: Hashing, n: nat)
    requires n * RECV_BUFSIZE <= HIGH_WATER
    ensures var mode := Mode(false, false);
            && Runs(e, mode, Initial(), Rounds(n))
            && var w := After(e, mode, Initial(), Rounds(n));
            && w.snd == SendSide([], n * RECV_BUFSIZE, n * RECV_BUFSIZE, 0, 0, Active, false, false)
            && !w.aborted && forall j :: 0 <= j < |w.ctl| ==> w.ctl[j].Raw?
  {
    hide Chunk;
    if n > 0 {
      RoundsRun(e, n - 1);
      var mode := Mode(false, false);
      var w := After(e, mode, Initial(), Rounds(n - 1));
      RunsMore(e, mode, Initial(), Rounds(n - 1), Read(Chunk()));
      var v := Next(e, mode, w, Read(Chunk()));
      assert v.snd.input == Chunk() && |Chunk()| == RECV_BUFSIZE && Chunk()[RECV_BUFSIZE..] == [];
      RunsMore(e, mode, Initial(), Rounds(n - 1) + [Read(Chunk())], Send(RECV_BUFSIZE, Raw(Chunk())));
    }
  }

  /**
   The end of the stream forgotten: with the window almost used up and a full buffer the end is seen,
   the last data goes over the high-water mark, and the connection is blocked without having announced
   its total.
   */
  lemma EndForgotten(e: Hashing)
    ensures var mode := Mode(false, false);
            var steps := Rounds(232) + [Read(Chunk())] + [Eof] + [Send(RECV_BUFSIZE, Raw(Chunk()))];
            && Runs(e, mode, Initial(), steps)
            && var w := After(e, mode, Initial(), steps);
            && w.snd.status == Blocked && w.snd.eof && w.snd.input == [] && !Enabled(e, mode, w, Finish)
            && forall j :: 0 <= j < |w.ctl| ==> !w.ctl[j].Close?
  {
    hide Chunk, Rounds;
    var mode := Mode(false, false);
    RoundsRun(e, 232);
    var w := After(e, mode, Initial(), Rounds(232));
    RunsMore(e, mode, Initial(), Rounds(232), Read(Chunk()));
    var v := Next(e, mode, w, Read(Chunk()));
    assert v.snd.input == Chunk();
    RunsMore(e, mode, Initial(), Rounds(232) + [Read(Chunk())], Eof);
    ChunkLength();
    assert Chunk()[RECV_BUFSIZE..] == [];
    RunsMore(e, mode, Initial(), Rounds(232) + [Read(Chunk())] + [Eof], Send(RECV_BUFSIZE, Raw(Chunk())));
  }

  lemma ChunkLength()
    ensures |Chunk()| == RECV_BUFSIZE
  {
  }
}
