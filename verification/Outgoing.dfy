/** The sending half of a user connection (ProcessUserData, ProcessNameAck and CloseConnection, waprox/waprox.c). */
module Outgoing {
  import opened Bytes
  import opened Boundary
  import opened Chunker
  import opened PreMrc
  import opened Resolve
  import opened Candidates
  import opened ChunkNames
  import opened Sender
  import opened Delivery
  import opened Receiver
  import opened Transparency
  import opened Described
  import opened Link
  import opened LinkSafety

  const MIN_RABIN_BUFSIZE: nat := 64 * 1024 * 3

  // ---------------------------------------------------------------- messages

  /** Every part of the buffer is a block in play. */
  ghost predicate InPlay(e: Hashing, buffer: seq<Byte>) {
    forall i, j :: 0 <= i <= j <= |buffer| ==> buffer[i..j] in e.play
  }

  lemma InPlayRest(e: Hashing, buffer: seq<Byte>, m: nat)
    requires InPlay(e, buffer) && m <= |buffer|
    ensures InPlay(e, buffer[m..])
  {
    forall i, j | 0 <= i <= j <= |buffer| - m ensures buffer[m..][i..j] in e.play {
      assert buffer[m..][i..j] == buffer[m + i..m + j];
    }
  }

  /** What the receiver parses describes the bytes consumed. */
  lemma ParsedDescribes(e: Hashing, cl: seq<OneCandidate>, psrc: seq<Byte>, h: Hints, total: nat, conn: ConnId,
                        wire: seq<Byte>)
    requires BlockList(cl, psrc, h, total) && 0 < total <= |psrc|
    requires forall k :: 0 <= k < |cl| ==> cl[k].End() <= |psrc|
    requires h.sha == e.sha && InPlay(e, psrc) && Fits(Entries(cl, psrc)) && wire == Message(conn, Entries(cl, psrc))
    ensures Parse(wire).Some? && Describes(e, NamesOf(Parse(wire).value.entries), psrc[..total])
    ensures Carries(e, Parse(wire).value.entries)
  {
    hide BlockList, Describes, Fits, Entries, NamesOf, Parse, Message;
    MessageRoundTrip(conn, Entries(cl, psrc), []);
    assert wire + [] == wire;
    forall k | 0 <= k < |cl| ensures psrc[cl[k].offset..cl[k].End()] in e.play {
    }
    BlockDescribed(e, cl, psrc, h, total);
    EntriesCarried(e, cl, psrc, h, total);
  }

  /** The contents sent along match their names and are in play. */
  lemma EntriesCarried(e: Hashing, cl: seq<OneCandidate>, psrc: seq<Byte>, h: Hints, total: nat)
    requires BlockList(cl, psrc, h, total) && forall k :: 0 <= k < |cl| ==> cl[k].End() <= |psrc|
    requires h.sha == e.sha && InPlay(e, psrc)
    ensures Carries(e, Entries(cl, psrc))
  {
    hide Named, InPlay, Authentic;
    BlockAuthentic(cl, psrc, h, total);
    forall k | 0 <= k < |cl| ensures psrc[cl[k].offset..cl[k].End()] in e.play {
      PartInPlay(e, psrc, cl[k].offset, cl[k].End());
    }
  }

  lemma PartInPlay(e: Hashing, buffer: seq<Byte>, i: nat, j: nat)
    requires InPlay(e, buffer) && i <= j <= |buffer|
    ensures buffer[i..j] in e.play
  {
  }

  /** The entries deliver the first m bytes of the buffer, as the tree of their names b asks for. */
  ghost predicate Told(es: seq<Entry>, psrc: seq<Byte>, h: Hints, b: Partial, m: nat) {
    exists cl: seq<OneCandidate>, g: seq<OneChunkName> ::
      TreeOf(g, b.names, b.pli, m, psrc) && BlockList(cl, psrc, h, m) && Delivers(es, cl, psrc, h, g)
  }

  /**
   The message for the front of the buffer: all of it raw without chunking; else the first block, raw when
   it is the first and that is asked for, and otherwise as the names of its tree.
   */
  ghost predicate Front(mode: Mode, numChunks: nat, psrc: seq<Byte>, h: Hints, p: Params, cfg: Config, maxSize: nat,
                        msg: Msg, m: nat)
    requires p.Valid() && cfg.Valid()
  {
    var bs := BlockBoundaries(p, cfg, psrc, maxSize);
    && m == (if mode.chunking then Last(bs) else |psrc|) && m <= |psrc|
    && if !mode.chunking || (mode.skipFirst && numChunks == 0) then msg == Raw(psrc[..m])
       else msg.Names? && Told(msg.entries, psrc, h, AllNames(bs, cfg), m)
  }

  class UserConn {
    const rctx: RabinCtx
    const conn: ConnId
    const mode: Mode
    const cfg: Config
    var bufRead: seq<Byte>
    var bytesTX: nat
    var numSent: int
    var lastAcked: nat
    var numChunks: nat
    var status: Status
    /** The user's stream has ended. */
    var eof: bool

    constructor (rctx: RabinCtx, conn: ConnId, mode: Mode, cfg: Config)
      ensures View() == Initial().snd && this.rctx == rctx && this.conn == conn && this.mode == mode && this.cfg == cfg
    {
      this.rctx, this.conn, this.mode, this.cfg := rctx, conn, mode, cfg;
      bufRead, bytesTX, numSent, lastAcked, numChunks, status, eof := [], 0, 0, 0, 0, Active, false;
    }

    function View(): SendSide
      reads this
    {
      SendSide(bufRead, bytesTX, numSent, lastAcked, numChunks, status, eof, false)
    }

    ghost predicate Ready()
      reads rctx.rp, rctx.rp.moduloT, rctx.rp.regionT, rctx.rp.regionBuf
    {
      rctx.rp.Valid() && cfg.Valid() && rctx.maxSize > 0
    }

    /** One message for the front of the buffer, and how much of it that message takes. */
    method NextMessage(h: Hints, ghost e: Hashing) returns (msg: Msg, m: nat)
      requires Ready() && bufRead != [] && h.sha == e.sha && InPlay(e, bufRead)
      modifies rctx`finger, rctx.rp`regionPos, rctx.rp.regionBuf
      ensures Ready() && 0 < m <= |bufRead| && RightMessage(e, mode, View(), m, msg)
      ensures Front(mode, numChunks, bufRead, h, rctx.ParamsOf(), cfg, rctx.maxSize, msg, m)
    {
      hide Fits, Describes, BlockList, Parse, InPlay, Forest, AllNames, BlockBoundaries, Last, Carries, Delivers;
      hide TreeOf, Selects, LevelsRight, CutRight;
      if !mode.chunking {
        msg, m := Raw(bufRead), |bufRead|;
      } else if mode.skipFirst && numChunks + 1 <= 1 {
        var names, size, pli;
        ghost var bs;
        names, size, pli, bs := DoPreMRC(rctx, bufRead, cfg);
        msg, m := Raw(bufRead[..size]), size;
      } else {
        var wire, size;
        ghost var cl, g, low;
        wire, size, cl, g, low := SendBlock(rctx, bufRead, cfg, h, conn);
        ParsedDescribes(e, cl, bufRead, h, size, conn, wire);
        ghost var b := AllNames(BlockBoundaries(rctx.ParamsOf(), cfg, bufRead, rctx.maxSize), cfg);
        assert Told(Parse(wire).value.entries, bufRead, h, b, size);
        msg, m := Names(Parse(wire).value.entries), size;
      }
    }

    /**
     Send the front of the buffer as one message; the window closes above the high-water mark.  With fits,
     a dead connection has no more than the window takes.
     */
    method SendFront(h: Hints, ghost e: Hashing, ghost w: World, ghost steps: seq<Step>, ghost msgs: seq<Msg>,
                     ghost fits: bool)
      returns (msg: Msg, ghost st: Step)
      requires Ready() && bufRead != [] && (status == Active || status == Done || status == Closed)
      requires h.sha == e.sha && e.Injective() && InPlay(e, bufRead)
      requires fits ==> TracksInv(e, mode, w, steps, msgs, View())
      requires fits && status == Closed ==> numSent + |bufRead| <= HIGH_WATER
      modifies this, rctx`finger, rctx.rp`regionPos, rctx.rp.regionBuf
      ensures Ready() && InPlay(e, bufRead) && |bufRead| < |old(bufRead)|
      ensures View() == Consume(old(View()), |old(bufRead)| - |bufRead|, mode.chunking)
      ensures fits ==> TracksInv(e, mode, w, steps + [st], msgs + [msg], View())
    {
      hide Inv, InPlay, RightMessage, Hashing.Injective, Tracks, TracksInv, UserConn.Ready, Front;
      var m;
      msg, m := NextMessage(h, e);
      st := Send(m, msg);
      if fits {
        TrackSend(e, mode, w, steps, msgs, View(), m, msg);
      }
      InPlayRest(e, bufRead, m);
      if mode.chunking {
        numChunks := numChunks + 1;
      }
      bytesTX := bytesTX + m;
      numSent := numSent + m;
      bufRead := bufRead[m..];
      if numSent > HIGH_WATER {
        status := Blocked;
      }
    }

    /**
     Send what the buffer holds, message by message, until it is empty, too short to chunk, or the
     window closes; after the end of the stream, announce the total.  What is processed leaves the
     buffer.  In the system this is a run of Send steps and possibly Finish.  The end of the stream is
     forgotten, and the connection left blocked, exactly when the buffer takes the outstanding bytes
     over the high-water mark.  A dead connection sends all it has; what takes it over the mark turns it
     into a blocked one, which the clean-up does not accept.
     */
    method ProcessUserData(h: Hints, force: bool, bufferTimeout: bool, ghost e: Hashing, ghost w: World)
      returns (msgs: seq<Msg>, ghost steps: seq<Step>)
      requires Ready() && w.snd == View() && h.sha == e.sha && e.Injective() && InPlay(e, bufRead) && Inv(e, mode, w)
      modifies this, rctx`finger, rctx.rp`regionPos, rctx.rp.regionBuf
      ensures Ready()
      ensures old(status) != Closed || old(numSent) + |old(bufRead)| <= HIGH_WATER ==>
                Tracks(e, mode, w, steps, msgs, View())
      ensures old(status) == Blocked ==> msgs == [] && View() == old(View())
      ensures || status == Blocked || status == FinSent || (status == Closed && bufRead == [])
              || (&& status == Active
                  && (bufRead == [] || (bufferTimeout && !force && mode.chunking && |bufRead| < MIN_RABIN_BUFSIZE)))
      ensures eof == old(eof)
      ensures numSent + |bufRead| == old(numSent) + |old(bufRead)|
      ensures old(status) == Done ==>
                if old(bufRead) != [] && old(numSent) + |old(bufRead)| > HIGH_WATER then status == Blocked
                else status == FinSent && bufRead == [] && msgs != [] && msgs[|msgs| - 1] == Close(bytesTX)
      ensures old(status) == Closed ==>
                (status == Blocked <==> old(bufRead) != [] && old(numSent) + |old(bufRead)| > HIGH_WATER)
    {
      hide Inv, InPlay, RightMessage, Hashing.Injective, Tracks, TracksInv, UserConn.Ready;
      msgs, steps := [], [];
      TrackStart(e, mode, w);
      if status == Blocked {
        return;
      }
      FinSentEmpty(e, mode, w);
      ghost var fits := status != Closed || numSent + |bufRead| <= HIGH_WATER;
      while bufRead != []
        invariant Ready() && InPlay(e, bufRead)
        invariant status == Active || status == Done || status == Closed || (status == FinSent && bufRead == [])
        invariant fits ==> TracksInv(e, mode, w, steps, msgs, View())
        invariant old(status) == status && old(eof) == eof
        invariant numSent + |bufRead| == old(numSent) + |old(bufRead)|
        invariant bufRead == old(bufRead) || numSent <= HIGH_WATER
        decreases |bufRead|
      {
        if mode.chunking && status == Active && bufferTimeout && !force && |bufRead| < MIN_RABIN_BUFSIZE {
          break;
        }
        var msg;
        ghost var st;
        msg, st := SendFront(h, e, w, steps, msgs, fits);
        steps, msgs := steps + [st], msgs + [msg];
        if status == Blocked {
          break;
        }
      }
      if fits {
        TrackForget(e, mode, w, steps, msgs, View());
      }
      if status == Done {
        var remain := |bufRead|;
        TrackFinish(e, mode, w, steps, msgs, View());
        steps := steps + [Finish];
        msgs := msgs + [Close(bytesTX + remain)];
        status := FinSent;
      }
    }

    /**
     The end of the user's stream: send what is left and announce the total; with nothing outstanding,
     close at once.
     */
    method CloseConnection(h: Hints, ghost e: Hashing, ghost w: World) returns (msgs: seq<Msg>, ghost steps: seq<Step>)
      requires Ready() && w.snd == View() && h.sha == e.sha && e.Injective() && InPlay(e, bufRead) && Inv(e, mode, w)
      modifies this, rctx`finger, rctx.rp`regionPos, rctx.rp.regionBuf
      ensures Ready() && Tracks(e, mode, w, steps, msgs, View())
      ensures old(status) == Closed ==> msgs == [] && View() == old(View())
      ensures old(status) != Closed && old(bufRead) != [] ==>
                && eof
                && if old(numSent) + |old(bufRead)| > HIGH_WATER then status == Blocked
                   else status == FinSent && bufRead == [] && msgs != [] && msgs[|msgs| - 1] == Close(bytesTX)
      ensures old(status) != Closed && old(bufRead) == [] ==>
                && eof && bufRead == [] && msgs == [Close(bytesTX)]
                && status == if numSent > 0 then FinSent else Closed
    {
      hide Inv, InPlay, Runs, After, Hashing.Injective, UserConn.Ready;
      msgs, steps := [], [];
      RunsNothing(e, mode, w);
      if status == Closed {
        return;
      }
      StepKeeps(e, mode, w, Eof);
      ghost var v := Next(e, mode, w, Eof);
      RunsFirst(e, mode, w, Eof);
      status, eof := Done, true;
      if |bufRead| > 0 {
        ghost var more;
        msgs, more := ProcessUserData(h, true, true, e, v);
        RunsThen(e, mode, w, Eof, more);
        steps := [Eof] + more;
        return;
      }
      RunsMore(e, mode, w, [Eof], Finish);
      steps := [Eof] + [Finish];
      msgs := [Close(bytesTX)];
      status := FinSent;
      if numSent > 0 {
        return;
      }
      TrackClosed(e, mode, w, steps, msgs, View());
      steps := steps + [SenderDies(false, 0)];
      ghost var last := After(e, mode, w, [Eof] + [Finish]);
      var none := SetDead(false, e, last, 0);
    }

    /** Bytes from the user join the read buffer. */
    method EventRead(data: seq<Byte>, ghost e: Hashing, ghost w: World)
      requires w.snd == View() && !eof && |bufRead| + |data| <= RECV_BUFSIZE
      modifies this`bufRead
      ensures Enabled(e, mode, w, Read(data)) && View() == Next(e, mode, w, Read(data)).snd
      ensures bufRead == old(bufRead) + data
    {
      bufRead := bufRead + data;
    }

    /** The connection ends for a reason outside this direction; an abnormal end is announced by a zero total. */
    method SetDead(abnormal: bool, ghost e: Hashing, ghost w: World, ghost kept: nat) returns (msgs: seq<Msg>)
      requires w.snd == View() && kept <= |w.ctl|
      modifies this`status
      ensures old(status) == Closed ==> msgs == [] && View() == old(View())
      ensures old(status) != Closed ==>
                var v := Next(e, mode, w, SenderDies(abnormal, kept));
                View() == v.snd && v.ctl == (if abnormal then w.ctl[..kept] else w.ctl) + msgs
      ensures status == Closed && msgs == if old(status) != Closed && abnormal then [Close(0)] else []
    {
      msgs := [];
      if status == Closed {
        return;
      }
      status := Closed;
      if abnormal {
        msgs := [Close(0)];
      }
    }

    /** Take an acknowledgement off the channel; a dead connection counts it as well. */
    method ProcessNameAck(ack: nat, ghost w: World, ghost e: Hashing)
      requires w.snd == View() && w.acks != [] && ack == w.acks[0] && Inv(e, mode, w)
      modifies this
      ensures View() == Next(e, mode, w, Ack).snd && lastAcked == ack
      ensures 0 <= numSent < MAX_WINDOW_SIZE && numSent == bytesTX - ack
      ensures old(status) == Blocked ==> (status == Active <==> numSent <= HIGH_WATER)
      ensures status == Closed <==> old(status) == Closed || (old(status) == FinSent && numSent == 0)
    {
      hide Inv, Next, Enabled;
      AckFacts(e, mode, w);
      var bytesAcked := ack - lastAcked;
      numSent := numSent - bytesAcked;
      lastAcked := ack;
      if status == Blocked && (MAX_WINDOW_SIZE - numSent) % UINT >= LOW_WATER {
        status := Active;
      }
      if status == FinSent && numSent == 0 {
        status := Closed;
      }
    }
  }

  lemma AckFacts(e: Hashing, mode: Mode, w: World)
    requires Inv(e, mode, w) && w.acks != [] && !w.snd.gone
    ensures var s, ack := w.snd, w.acks[0]; var n := s.numSent - (ack - s.lastAcked);
            && s.lastAcked <= ack && n == s.bytesTX - ack && 0 <= n < MAX_WINDOW_SIZE
            && (MAX_WINDOW_SIZE - n) % UINT == MAX_WINDOW_SIZE - n
            && Enabled(e, mode, w, Ack) && Next(e, mode, w, Ack).snd == Acked(s, ack)
  {
    hide Base, Ordered, CountsSafe, IsPrefix, Hashing.Trusts;
    BaseCounted(e, w);
    AckBase(e, mode, w);
    BaseCounted(e, Next(e, mode, w, Ack));
    CountedSender(w);
    CountedSender(Next(e, mode, w, Ack));
  }

  lemma CountedSender(w: World)
    requires CountsSafe(w)
    ensures w.snd.numSent == w.snd.bytesTX - w.snd.lastAcked && 0 <= w.snd.numSent < MAX_WINDOW_SIZE
    ensures w.acks != [] ==> w.snd.lastAcked <= w.acks[0]
  {
  }

  /** From w the steps are a run that sends msgs and brings the sender to s, and nothing else moves. */
  ghost predicate Tracks(e: Hashing, mode: Mode, w: World, steps: seq<Step>, msgs: seq<Msg>, s: SendSide) {
    && Runs(e, mode, w, steps)
    && var v := After(e, mode, w, steps);
    && v.snd == s && v.ctl == w.ctl + msgs && v.rcv == w.rcv && v.acks == w.acks && v.stream == w.stream
  }

  ghost predicate TracksInv(e: Hashing, mode: Mode, w: World, steps: seq<Step>, msgs: seq<Msg>, s: SendSide) {
    Tracks(e, mode, w, steps, msgs, s) && Inv(e, mode, After(e, mode, w, steps))
  }

  lemma TrackStart(e: Hashing, mode: Mode, w: World)
    requires Inv(e, mode, w)
    ensures Tracks(e, mode, w, [], [], w.snd) && TracksInv(e, mode, w, [], [], w.snd)
  {
    hide Inv;
    assert w.ctl + [] == w.ctl;
  }

  lemma TrackSend(e: Hashing, mode: Mode, w: World, steps: seq<Step>, msgs: seq<Msg>, s: SendSide, m: nat, msg: Msg)
    requires e.Injective() && TracksInv(e, mode, w, steps, msgs, s)
    requires 0 < m <= |s.input| && MaySend(s, m) && RightMessage(e, mode, s, m, msg)
    ensures TracksInv(e, mode, w, steps + [Send(m, msg)], msgs + [msg], Consume(s, m, mode.chunking))
  {
    hide Inv, RightMessage, Enabled, Next, Runs, After, Hashing.Injective;
    var v := After(e, mode, w, steps);
    SendEnabled(e, mode, v, m, msg);
    StepKeeps(e, mode, v, Send(m, msg));
    SendNext(e, mode, v, m, msg);
    RunsMore(e, mode, w, steps, Send(m, msg));
    assert w.ctl + msgs + [msg] == w.ctl + (msgs + [msg]);
  }

  lemma TrackFinish(e: Hashing, mode: Mode, w: World, steps: seq<Step>, msgs: seq<Msg>, s: SendSide)
    requires TracksInv(e, mode, w, steps, msgs, s) && s.status == Done && s.input == []
    ensures Tracks(e, mode, w, steps + [Finish], msgs + [Close(s.bytesTX)], s.(status := FinSent))
  {
    hide Inv, Enabled, Next, Runs, After;
    var v := After(e, mode, w, steps);
    FinishEnabled(e, mode, v);
    FinishNext(e, mode, v);
    RunsMore(e, mode, w, steps, Finish);
    assert w.ctl + msgs + [Close(s.bytesTX)] == w.ctl + (msgs + [Close(s.bytesTX)]);
  }

  lemma TrackClosed(e: Hashing, mode: Mode, w: World, steps: seq<Step>, msgs: seq<Msg>, s: SendSide)
    requires Tracks(e, mode, w, steps, msgs, s) && s.status != Closed
    ensures Tracks(e, mode, w, steps + [SenderDies(false, 0)], msgs, s.(status := Closed))
  {
    hide Runs, After;
    RunsMore(e, mode, w, steps, SenderDies(false, 0));
  }

  lemma TrackForget(e: Hashing, mode: Mode, w: World, steps: seq<Step>, msgs: seq<Msg>, s: SendSide)
    requires TracksInv(e, mode, w, steps, msgs, s)
    ensures Tracks(e, mode, w, steps, msgs, s)
  {
  }

  lemma RunsNothing(e: Hashing, mode: Mode, w: World)
    ensures Runs(e, mode, w, []) && After(e, mode, w, []) == w
  {
  }

  lemma RunsFirst(e: Hashing, mode: Mode, w: World, st: Step)
    requires Enabled(e, mode, w, st)
    ensures Runs(e, mode, w, [st]) && After(e, mode, w, [st]) == Next(e, mode, w, st)
  {
    hide Enabled, Next;
    RunsMore(e, mode, w, [], st);
    assert [] + [st] == [st];
  }

  lemma RunsThen(e: Hashing, mode: Mode, w: World, st: Step, more: seq<Step>)
    requires Enabled(e, mode, w, st) && Runs(e, mode, Next(e, mode, w, st), more)
    ensures Runs(e, mode, w, [st] + more)
    ensures After(e, mode, w, [st] + more) == After(e, mode, Next(e, mode, w, st), more)
  {
    hide Enabled, Next;
    assert ([st] + more)[1..] == more;
  }

  lemma SendEnabled(e: Hashing, mode: Mode, w: World, m: nat, msg: Msg)
    requires MaySend(w.snd, m) && 0 < m <= |w.snd.input|
    requires RightMessage(e, mode, w.snd, m, msg)
    ensures Enabled(e, mode, w, Send(m, msg))
  {
  }

  lemma SendNext(e: Hashing, mode: Mode, w: World, m: nat, msg: Msg)
    requires Enabled(e, mode, w, Send(m, msg))
    ensures var v := Next(e, mode, w, Send(m, msg));
            && v.snd == Consume(w.snd, m, mode.chunking) && v.ctl == w.ctl + [msg] && v.rcv == w.rcv && v.acks == w.acks
            && v.stream == w.stream
  {
  }

  lemma FinishEnabled(e: Hashing, mode: Mode, w: World)
    requires w.snd.status == Done && w.snd.input == []
    ensures Enabled(e, mode, w, Finish)
  {
  }

  lemma FinishNext(e: Hashing, mode: Mode, w: World)
    requires Enabled(e, mode, w, Finish)
    ensures var v := Next(e, mode, w, Finish);
            && v.snd == w.snd.(status := FinSent) && v.ctl == w.ctl + [Close(w.snd.bytesTX)] && v.rcv == w.rcv
            && v.acks == w.acks && v.stream == w.stream
  {
  }

  lemma FinSentEmpty(e: Hashing, mode: Mode, w: World)
    requires Inv(e, mode, w)
    ensures w.snd.status == FinSent ==> w.snd.input == []
  {
  }
}
