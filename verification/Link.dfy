/**
 One direction of one user connection between two proxies, as a step system: the sending
 connection, the FIFO control channel, the receiving connection with its reassembly list and
 write queue, and the FIFO acknowledgement channel (waprox/waprox.c, waprox/reassemble.c).
 */
module Link {
  import opened Bytes
  import opened Delivery
  import opened ChunkTable
  import opened Receiver
  import opened Described

  const MAX_WINDOW_SIZE: nat := 60 * 1024 * 1024
  /** 0.8 of the window. */
  const HIGH_WATER: nat := 50331648
  /** 0.2 of the window. */
  const LOW_WATER: nat := 12582912
  /** The part of 1.1 times MIN_RABIN_BUFSIZE that read can fill. */
  const RECV_BUFSIZE: nat := 216268
  const UINT: nat := 0x1_0000_0000

  datatype Status = Active | Blocked | Done | FinSent | Closed

  /** A data message, or the announcement of the total, zero meaning an abnormal end. */
  datatype Msg = Names(entries: seq<Entry>) | Raw(data: seq<Byte>) | Close(total: nat)

  /**
   The sending ConnectionInfo; eof is set once the user's stream has ended, and gone once the connection
   has been cleaned up.
   */
  datatype SendSide = SendSide(input: seq<Byte>, bytesTX: nat, numSent: int, lastAcked: nat, numChunks: nat,
                               status: Status, eof: bool, gone: bool)

  datatype Life = Open | ClosedOnTotal | ClosedOther(abnormal: bool)

  /** The receiving ConnectionInfo; gone once it has been cleaned up. */
  datatype RecvSide = RecvSide(reassemble: seq<seq<ChunkNameInfo>>, writeQ: seq<seq<Byte>>, firstMsgOffset: nat,
                               lenWrite: int, bytesRX: nat, closeBytes: nat, pendingNames: int, pendingBytes: int,
                               life: Life, gone: bool)

  /** Which messages the sender uses: g_ClientChunking / g_ServerChunking and g_SkipFirstChunk. */
  datatype Mode = Mode(chunking: bool, skipFirst: bool)

  // ---------------------------------------------------------------- the sending connection

  /** One message that takes m bytes off the read buffer. */
  function Consume(s: SendSide, m: nat, chunked: bool): SendSide
    requires m <= |s.input|
  {
    s.(input := s.input[m..], bytesTX := s.bytesTX + m, numSent := s.numSent + m,
       numChunks := if chunked then s.numChunks + 1 else s.numChunks,
       status := if s.numSent + m > HIGH_WATER then Blocked else s.status)
  }

  /** The unsigned subtraction of the resume test. */
  function Unsigned(x: int): int {
    x % UINT
  }

  function Acked(s: SendSide, ack: nat): SendSide {
    var n := s.numSent - (ack - s.lastAcked);
    var st := if s.status == Blocked && Unsigned(MAX_WINDOW_SIZE - n) >= LOW_WATER then Active else s.status;
    s.(numSent := n, lastAcked := ack, status := if st == FinSent && n == 0 then Closed else st)
  }

  // ---------------------------------------------------------------- the receiving connection

  /** What one call of write does: take up to n bytes, ask to retry, or fail. */
  datatype Outcome = Accepts(n: nat) | Busy | Fails

  datatype Writing = Writing(q: seq<seq<Byte>>, offset: nat, lenWrite: int, bytesSent: nat, out: seq<Byte>,
                             failed: bool)

  /** One call of ActualWrite on the head of the queue, and whether to go on. */
  function WriteHead(w: Writing, o: Outcome): (Writing, bool)
    requires w.q != [] && w.offset < |w.q[0]|
  {
    var head := w.q[0];
    match o
    case Busy => (w, false)
    case Fails => (w.(failed := true), false)
    case Accepts(n) =>
      if n == 0 then (w.(failed := true), false)
      else if n < |head| - w.offset then
        (w.(offset := w.offset + n, out := w.out + head[w.offset..w.offset + n]), false)
      else (Writing(w.q[1..], 0, w.lenWrite - |head|, w.bytesSent + |head|, w.out + head[w.offset..], false), true)
  }

  /** The queue holds non-empty messages and the offset is inside its head. */
  predicate QueueOk(q: seq<seq<Byte>>, offset: nat) {
    (forall i :: 0 <= i < |q| ==> q[i] != []) && if q == [] then offset == 0 else offset < |q[0]|
  }

  /** The loop of Write against the outcomes of the successive calls; none left means busy. */
  function WriteLoop(w: Writing, os: seq<Outcome>): Writing
    requires QueueOk(w.q, w.offset)
    decreases |os|
  {
    if w.q == [] || os == [] then w
    else
      var (v, more) := WriteHead(w, os[0]);
      if more then WriteLoop(v, os[1..]) else v
  }

  function WriteStart(r: RecvSide): Writing {
    Writing(r.writeQ, r.firstMsgOffset, r.lenWrite, 0, [], false)
  }

  /** PostWrite: count the bytes, acknowledge, and close when the announced total is reached by a write event. */
  function AfterWrite(r: RecvSide, w: Writing, event: bool): (RecvSide, seq<nat>) {
    var r1 := r.(writeQ := w.q, firstMsgOffset := w.offset, lenWrite := w.lenWrite);
    if w.failed then (r1.(life := if r.life == Open then ClosedOther(true) else r.life), [])
    else if w.bytesSent == 0 then (r1, [])
    else
      var rx := r.bytesRX + w.bytesSent;
      var shut := event && r.closeBytes != 0 && rx == r.closeBytes && r.life == Open;
      (r1.(bytesRX := rx, life := if shut then ClosedOnTotal else r.life), [rx])
  }

  /** Write gives up only on a connection that died abnormally. */
  predicate Writable(r: RecvSide) {
    r.life != ClosedOther(true)
  }

  /** SendDataPrivate without the attempt to write at once. */
  function Enqueue(r: RecvSide, block: seq<Byte>): RecvSide {
    r.(writeQ := r.writeQ + [block], lenWrite := r.lenWrite + |block|)
  }

  /** SetDead: only the first cause counts. */
  function Dead(r: RecvSide, cause: Life): RecvSide {
    if r.life == Open then r.(life := cause) else r
  }

  /** The bytes a message stands for. */
  function MsgBytes(m: Msg): nat {
    match m
    case Names(es) => Offset(NamesOf(es), |es|)
    case Raw(d) => |d|
    case Close(_) => 0
  }

  /** A message from the control channel; a dead connection takes it as well, until it is cleaned up. */
  function Receive(r: RecvSide, m: Msg): RecvSide {
    if r.gone then r
    else
      match m
      case Names(es) => r.(reassemble := r.reassemble + [NamesOf(es)], pendingNames := r.pendingNames + |es|,
                           pendingBytes := r.pendingBytes + MsgBytes(m))
      case Raw(d) => Enqueue(r, d)
      case Close(total) =>
        if total == 0 then Dead(r, ClosedOther(true))
        else if r.bytesRX == total then Dead(r, ClosedOnTotal)
        else r.(closeBytes := total)
  }

  /** The chunk table after a message: contents are put, whatever the state of the connection, unless it is gone. */
  ghost function Stored(t: Table, r: RecvSide, m: Msg): Table {
    if m.Names? && !r.gone then PutContents(t, m.entries, |m.entries|) else t
  }

  /** The first list of the reassembly queue has been rebuilt to these bytes. */
  function Rebuild(r: RecvSide, block: seq<Byte>): RecvSide
    requires r.reassemble != []
  {
    Enqueue(r.(reassemble := r.reassemble[1..], pendingNames := r.pendingNames - |r.reassemble[0]|,
               pendingBytes := r.pendingBytes - |block|), block)
  }

  /** The test at the end of ReconstructOriginalData. */
  function CloseCheck(r: RecvSide): RecvSide {
    if r.life == Open && r.closeBytes != 0 && r.bytesRX == r.closeBytes then r.(life := ClosedOnTotal) else r
  }

  // ---------------------------------------------------------------- the system

  /**
   Both connections, both channels and the chunk table of the receiving proxy, with history: the bytes
   read from the sending user, the blocks sent, how many of them have entered the write queue, how many
   data messages at the front of the channel were sent in order, the bytes given to the receiving
   socket, whether the sender died abnormally, and whether the receiver took data sent after that.
   */
  datatype World = World(snd: SendSide, ctl: seq<Msg>, rcv: RecvSide, acks: seq<nat>, table: Table,
                         stream: seq<Byte>, sent: seq<seq<Byte>>, entered: nat, flight: nat, written: seq<Byte>,
                         aborted: bool, strayed: bool)

  datatype Step =
    | Read(data: seq<Byte>)
    | Send(m: nat, msg: Msg)
    | Eof
    | Finish
    | Ack
    | SenderDies(abnormal: bool, kept: nat)
    | SenderGone
    | Deliver(kept: nat)
    | Rebuilds
    | Writes(os: seq<Outcome>, event: bool, kept: nat)
    | Check
    | ReceiverDies(abnormal: bool, kept: nat)
    | ReceiverGone
    | Arrives(block: seq<Byte>)
    | Releases(list: seq<ChunkNameInfo>)

  /** Delivered contents match their names and are in play. */
  ghost predicate Carries(e: Hashing, es: seq<Entry>) {
    && Authentic(es, e.sha)
    && forall k :: 0 <= k < |es| && es[k].content.Some? ==> es[k].content.value in e.play
  }

  /** The message for the first m bytes of the buffer. */
  ghost predicate RightMessage(e: Hashing, mode: Mode, s: SendSide, m: nat, msg: Msg)
    requires m <= |s.input|
  {
    if !mode.chunking then m == |s.input| && msg == Raw(s.input)
    else if mode.skipFirst && s.numChunks == 0 then msg == Raw(s.input[..m])
    else msg.Names? && Describes(e, NamesOf(msg.entries), s.input[..m]) && Carries(e, msg.entries)
  }

  /**
   Data may be sent while the connection is active or at its end.  A dead connection still sends what its
   read buffer holds; with more than the window takes it would turn into a blocked one.
   */
  predicate MaySend(s: SendSide, m: nat) {
    !s.gone && (s.status == Active || s.status == Done || (s.status == Closed && s.numSent + m <= HIGH_WATER))
  }

  ghost predicate Enabled(e: Hashing, mode: Mode, w: World, st: Step) {
    match st
    case Read(data) => !w.snd.gone && !w.snd.eof && |w.snd.input| + |data| <= RECV_BUFSIZE
    case Send(m, msg) => 0 < m <= |w.snd.input| && MaySend(w.snd, m) && RightMessage(e, mode, w.snd, m, msg)
    case Eof => w.snd.status != Closed
    case Finish => w.snd.status == Done && w.snd.input == []
    case Ack => w.acks != []
    case SenderDies(_, kept) => w.snd.status != Closed && kept <= |w.ctl|
    case SenderGone => w.snd.status == Closed
    case Deliver(kept) => w.ctl != [] && kept <= |w.acks|
    case Rebuilds => !w.rcv.gone && w.rcv.reassemble != [] && Available(w.table, w.rcv.reassemble[0])
    case Writes(_, _, kept) =>
      !w.rcv.gone && Writable(w.rcv) && QueueOk(w.rcv.writeQ, w.rcv.firstMsgOffset) && kept <= |w.acks|
    case Check => !w.rcv.gone
    case ReceiverDies(_, kept) => w.rcv.life == Open && kept <= |w.acks|
    case ReceiverGone => w.rcv.life != Open
    case Arrives(block) => block in e.play && block != []
    case Releases(list) => Available(w.table, list)
  }

  ghost function Next(e: Hashing, mode: Mode, w: World, st: Step): World
    requires Enabled(e, mode, w, st)
  {
    match st
    case Read(data) => w.(snd := w.snd.(input := w.snd.input + data), stream := w.stream + data)
    case Send(m, msg) =>
      w.(snd := Consume(w.snd, m, mode.chunking), ctl := w.ctl + [msg], sent := w.sent + [w.snd.input[..m]],
         flight := if w.aborted then w.flight else w.flight + 1)
    case Eof => w.(snd := w.snd.(status := Done, eof := true))
    case Finish => w.(snd := w.snd.(status := FinSent), ctl := w.ctl + [Close(w.snd.bytesTX)])
    case Ack => w.(snd := if w.snd.gone then w.snd else Acked(w.snd, w.acks[0]), acks := w.acks[1..])
    case SenderDies(abnormal, kept) =>
      if abnormal then w.(snd := w.snd.(status := Closed), ctl := w.ctl[..kept] + [Close(0)],
                          flight := if kept < w.flight then kept else w.flight, aborted := true)
      else w.(snd := w.snd.(status := Closed))
    case SenderGone => w.(snd := w.snd.(gone := true))
    case Deliver(kept) =>
      var m := w.ctl[0];
      w.(rcv := Receive(w.rcv, m), ctl := w.ctl[1..], flight := if w.flight == 0 then 0 else w.flight - 1,
         acks := AcksLeft(w.acks, !w.rcv.gone && w.rcv.life == Open && m == Close(0), kept),
         table := Stored(w.table, w.rcv, m), entered := if m.Raw? && !w.rcv.gone then w.entered + 1 else w.entered,
         strayed := w.strayed || (!m.Close? && w.flight == 0 && !w.rcv.gone))
    case Rebuilds =>
      var l := w.rcv.reassemble[0];
      w.(rcv := Rebuild(w.rcv, Blocks(w.table, l, |l|)), table := Released(w.table, l, |l|), entered := w.entered + 1)
    case Writes(os, event, kept) =>
      var v := WriteLoop(WriteStart(w.rcv), os);
      var (r, a) := AfterWrite(w.rcv, v, event);
      w.(rcv := r, acks := AcksLeft(w.acks, v.failed && w.rcv.life == Open, kept) + a, written := w.written + v.out)
    case Check => w.(rcv := CloseCheck(w.rcv))
    case ReceiverDies(abnormal, kept) =>
      w.(rcv := w.rcv.(life := ClosedOther(abnormal)), acks := AcksLeft(w.acks, abnormal, kept))
    case ReceiverGone => w.(rcv := w.rcv.(gone := true))
    case Arrives(block) => w.(table := Put(w.table, e.sha(block), block))
    case Releases(list) => w.(table := Released(w.table, list, |list|))
  }

  /** A connection that dies abnormally discards the acknowledgements it still has queued. */
  function AcksLeft(acks: seq<nat>, dies: bool, kept: nat): seq<nat>
    requires kept <= |acks|
  {
    if dies then acks[..kept] else acks
  }

  function Initial(): World {
    World(SendSide([], 0, 0, 0, 0, Active, false, false), [], RecvSide([], [], 0, 0, 0, 0, 0, 0, Open, false), [],
          map[], [], [], 0, 0, [], false, false)
  }

  // ---------------------------------------------------------------- invariants

  /** Blocks, one after another. */
  function Flat(s: seq<seq<Byte>>): seq<Byte> {
    if s == [] then [] else Flat(s[..|s| - 1]) + s[|s| - 1]
  }

  function NamesTotal(ls: seq<seq<ChunkNameInfo>>): nat {
    if ls == [] then 0 else |ls[0]| + NamesTotal(ls[1..])
  }

  function BytesTotal(ls: seq<seq<ChunkNameInfo>>): nat {
    if ls == [] then 0 else Offset(ls[0], |ls[0]|) + BytesTotal(ls[1..])
  }

  /** The sender counts what it consumed, and never fills the window. */
  ghost predicate SenderOk(s: SendSide, sent: seq<seq<Byte>>) {
    && s.bytesTX == |Flat(sent)| && s.numSent == s.bytesTX - s.lastAcked && s.numSent >= 0
    && |s.input| <= RECV_BUFSIZE
    && (s.status == Active ==> s.numSent <= HIGH_WATER)
    && (!s.eof ==> s.numSent <= HIGH_WATER + RECV_BUFSIZE)
    && (s.eof ==> s.numSent + |s.input| <= HIGH_WATER + 2 * RECV_BUFSIZE)
    && (s.status == Done || s.status == FinSent ==> s.eof)
    && (s.status == FinSent ==> s.input == [])
  }

  /** A data message stands for a block. */
  ghost predicate Means(e: Hashing, m: Msg, block: seq<Byte>) {
    match m
    case Names(es) => Describes(e, NamesOf(es), block)
    case Raw(d) => d == block
    case Close(_) => false
  }

  /** The list names the parts of some block. */
  ghost predicate Fine(e: Hashing, l: seq<ChunkNameInfo>) {
    exists block :: Describes(e, l, block)
  }

  /** Whatever is in the channel can be taken by any table and any queue. */
  ghost predicate Proper(e: Hashing, m: Msg) {
    match m
    case Names(es) => Fine(e, NamesOf(es)) && Carries(e, es)
    case Raw(d) => d != []
    case Close(_) => true
  }

  /** The first messages of the channel stand for the blocks from index d on. */
  ghost predicate ChannelOk(e: Hashing, ctl: seq<Msg>, flight: nat, sent: seq<seq<Byte>>, d: nat) {
    && flight <= |ctl| && d + flight <= |sent|
    && forall j :: 0 <= j < flight ==> Means(e, ctl[j], sent[d + j])
  }

  /** The reassembly list names the blocks from index a on. */
  ghost predicate ListsOk(e: Hashing, ls: seq<seq<ChunkNameInfo>>, sent: seq<seq<Byte>>, a: nat) {
    a + |ls| <= |sent| && forall i :: 0 <= i < |ls| ==> Describes(e, ls[i], sent[a + i])
  }

  /** A raw message never overtakes a list of names; numChunks tells the first message. */
  ghost predicate RawFirst(mode: Mode, w: World) {
    && (mode.chunking ==> w.snd.numChunks == |w.sent|)
    && (!mode.chunking ==> w.rcv.reassemble == [] && forall j :: 0 <= j < w.flight && j < |w.ctl| ==> w.ctl[j].Raw?)
    && (forall j :: 0 <= j < w.flight && j < |w.ctl| && w.ctl[j].Raw? && mode.chunking ==>
          w.entered + |w.rcv.reassemble| + j == 0)
  }

  /** The written bytes and the rest of the queue are the first a blocks. */
  ghost predicate StreamOk(r: RecvSide, written: seq<Byte>, sent: seq<seq<Byte>>, a: nat) {
    && QueueOk(r.writeQ, r.firstMsgOffset) && r.firstMsgOffset <= |Flat(r.writeQ)| && a <= |sent|
    && written + Flat(r.writeQ)[r.firstMsgOffset..] == Flat(sent[..a])
    && r.lenWrite == |Flat(r.writeQ)|
    && r.bytesRX + r.lenWrite <= |Flat(sent[..a])|
    && (r.life == Open ==> r.bytesRX + r.lenWrite == |Flat(sent[..a])|)
  }

  ghost predicate PendingOk(r: RecvSide) {
    r.pendingNames == NamesTotal(r.reassemble) && r.pendingBytes == BytesTotal(r.reassemble)
  }

  /** Acknowledgements in flight ascend from the last one processed to the bytes counted. */
  ghost predicate AcksOk(lastAcked: nat, acks: seq<nat>, bytesRX: nat) {
    && lastAcked <= bytesRX
    && (forall i :: 0 <= i < |acks| ==> lastAcked <= acks[i] <= bytesRX)
    && (forall i, j :: 0 <= i < j < |acks| ==> acks[i] <= acks[j])
  }

  /** A total has been announced. */
  ghost predicate Announced(w: World) {
    || w.rcv.closeBytes != 0 || w.rcv.life == ClosedOnTotal
    || exists j :: 0 <= j < |w.ctl| && w.ctl[j].Close? && w.ctl[j].total != 0
  }

  /** An announced total is everything the sender will ever send, and all of it is on its way. */
  ghost predicate ClosingOk(w: World) {
    && (Announced(w) ==>
          w.snd.eof && w.snd.input == [] && (w.snd.status == FinSent || w.snd.status == Done || w.snd.status == Closed))
    && (w.rcv.closeBytes != 0 ==> w.rcv.closeBytes == w.snd.bytesTX)
    && (forall j :: 0 <= j < |w.ctl| && w.ctl[j].Close? && w.ctl[j].total != 0 ==> w.ctl[j].total == w.snd.bytesTX)
    && (w.rcv.life == ClosedOnTotal ==> w.written == Flat(w.sent) && w.rcv.writeQ == [] && w.rcv.reassemble == [])
  }

  /** While more may be sent, every block sent is on its way. */
  ghost predicate CompleteOk(w: World) {
    !w.rcv.gone && !w.aborted && (w.snd.eof ==> w.snd.input != []) ==>
      w.entered + |w.rcv.reassemble| + w.flight == |w.sent|
  }

  ghost predicate BlocksOk(sent: seq<seq<Byte>>) {
    forall i :: 0 <= i < |sent| ==> sent[i] != []
  }

  ghost predicate QueuesOk(e: Hashing, mode: Mode, w: World) {
    ChannelOk(e, w.ctl, w.flight, w.sent, w.entered + |w.rcv.reassemble|) && RawFirst(mode, w)
  }

  /** The bytes the messages of the channel stand for. */
  function CtlBytes(ctl: seq<Msg>): nat {
    if ctl == [] then 0 else MsgBytes(ctl[0]) + CtlBytes(ctl[1..])
  }

  /** Every byte consumed is counted at most once on its way, and what is counted as written has been. */
  ghost predicate CountsOk(r: RecvSide, ctl: seq<Msg>, written: seq<Byte>, bytesTX: nat) {
    && QueueOk(r.writeQ, r.firstMsgOffset) && r.lenWrite == |Flat(r.writeQ)|
    && r.bytesRX + r.lenWrite + BytesTotal(r.reassemble) + CtlBytes(ctl) <= bytesTX
    && r.bytesRX + r.firstMsgOffset <= |written|
  }

  /** Whatever the receiver takes from the channel, its lists and the table can be rebuilt. */
  ghost predicate Supplied(e: Hashing, t: Table, ctl: seq<Msg>, ls: seq<seq<ChunkNameInfo>>) {
    && e.Trusts(t) && (forall j :: 0 <= j < |ctl| ==> Proper(e, ctl[j]))
    && forall i :: 0 <= i < |ls| ==> Fine(e, ls[i])
  }

  /** A data message behind the ordered part of the channel. */
  ghost predicate Late(ctl: seq<Msg>, flight: nat) {
    exists j :: flight <= j < |ctl| && !ctl[j].Close?
  }

  /** The first message behind the ordered part, but for totals, is the announcement of an abnormal end. */
  ghost predicate Warned(ctl: seq<Msg>, flight: nat) {
    exists i :: flight <= i < |ctl| && ctl[i] == Close(0) && forall j :: flight <= j < i ==> ctl[j].Close?
  }

  /** Only an aborted sender has late messages; the receiver is dead before it takes one, and no total is announced. */
  ghost predicate LateOk(w: World) {
    && w.flight <= |w.ctl| && (w.rcv.gone ==> w.rcv.life != Open)
    && (w.aborted ==> w.snd.status == Closed && (w.rcv.life != Open || Warned(w.ctl, w.flight)))
    && (w.strayed || Late(w.ctl, w.flight) ==> w.aborted && !Announced(w))
    && (w.strayed ==> w.rcv.life.ClosedOther?)
    && (!w.aborted && (w.snd.eof ==> w.snd.input != []) ==> w.flight == |w.ctl|)
  }

  /** What was read is what was sent and what still waits; the sender's counters follow. */
  ghost predicate SentOk(s: SendSide, sent: seq<seq<Byte>>, stream: seq<Byte>) {
    BlocksOk(sent) && SenderOk(s, sent) && stream == Flat(sent) + s.input
  }

  /** What holds in every run. */
  ghost predicate Base(e: Hashing, w: World) {
    && Supplied(e, w.table, w.ctl, w.rcv.reassemble) && SentOk(w.snd, w.sent, w.stream)
    && PendingOk(w.rcv) && CountsOk(w.rcv, w.ctl, w.written, w.snd.bytesTX)
    && AcksOk(w.snd.lastAcked, w.acks, w.rcv.bytesRX) && LateOk(w)
  }

  /** What holds as long as the receiver has taken no data sent after an abnormal end. */
  ghost predicate Ordered(e: Hashing, mode: Mode, w: World) {
    && ListsOk(e, w.rcv.reassemble, w.sent, w.entered) && (!w.rcv.gone ==> QueuesOk(e, mode, w))
    && StreamOk(w.rcv, w.written, w.sent, w.entered) && ClosingOk(w) && CompleteOk(w)
  }

  ghost predicate Inv(e: Hashing, mode: Mode, w: World) {
    && Base(e, w)
    && (!w.strayed ==> Ordered(e, mode, w))
    && (w.strayed && w.rcv.life == ClosedOther(true) ==> IsPrefix(w.written, w.stream))
  }

  ghost predicate IsPrefix(a: seq<Byte>, b: seq<Byte>) {
    |a| <= |b| && a == b[..|a|]
  }
}
