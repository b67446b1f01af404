/**
 The name-delivery message (waprox/protocol.c and ProcessNameTreeDelivery2, waprox/waprox.c):
 for each candidate its name, its length and, unless the receiver is expected to have it, its
 content.
 */
module Delivery {
  import opened Wrappers
  import opened Bytes
  import opened ChunkNames
  import opened Candidates
  import opened CandidateOrder

  /** One chunk of a delivery as the receiver sees it. */
  datatype Entry = Entry(name: Sha1, length: nat, content: Option<seq<Byte>>)

  const MAGIC_WAHEADER: Byte := 0x57
  const MAGIC_WANAMEDELIVERY: Byte := 0x71
  const TYPE_WANAMEDELIVERY: Byte := 78
  const NAME_DELIVERY: nat := 23
  const ONE_TREE: nat := 5
  const ONE_CHUNK: nat := 25
  const WORD: nat := 0x1_0000_0000

  // ---------------------------------------------------------------- integers on the wire

  function Be32(n: nat): (b: seq<Byte>)
    requires n < WORD
    ensures |b| == 4
  {
    [n / 256 / 256 / 256, n / 256 / 256 % 256, n / 256 % 256, n % 256]
  }

  function FromBe32(b: seq<Byte>): (n: nat)
    requires |b| == 4
    ensures n < WORD
  {
    var b0: nat, b1: nat, b2: nat, b3: nat := b[0], b[1], b[2], b[3];
    ((b0 * 256 + b1) * 256 + b2) * 256 + b3
  }

  lemma Be32RoundTrip(n: nat)
    requires n < WORD
    ensures FromBe32(Be32(n)) == n
  {
  }

  // ---------------------------------------------------------------- entries

  /** The sender puts the content of misses and of small chunks. */
  predicate SendsContent(c: OneCandidate) {
    !c.isHit || c.length <= WAPROX_MIN_CHUNK_SIZE
  }

  function EntryOf(c: OneCandidate, psrc: seq<Byte>): Entry
    requires c.End() <= |psrc|
  {
    Entry(c.sha1name, c.length, if SendsContent(c) then Some(psrc[c.offset..c.End()]) else None)
  }

  function Entries(cl: seq<OneCandidate>, psrc: seq<Byte>): (es: seq<Entry>)
    requires forall k :: 0 <= k < |cl| ==> cl[k].End() <= |psrc|
    ensures |es| == |cl| && forall k :: 0 <= k < |cl| ==> es[k] == EntryOf(cl[k], psrc)
  {
    if cl == [] then [] else [EntryOf(cl[0], psrc)] + Entries(cl[1..], psrc)
  }

  predicate Sendable(e: Entry) {
    e.length < WORD && (e.content.Some? ==> |e.content.value| == e.length)
  }

  function EncodeEntry(e: Entry): (b: seq<Byte>)
    requires Sendable(e)
    ensures |b| == ONE_CHUNK + if e.content.Some? then e.length else 0
  {
    e.name + Be32(e.length) + if e.content.Some? then [1] + e.content.value else [0]
  }

  function EncodeAll(es: seq<Entry>): seq<Byte>
    requires forall k :: 0 <= k < |es| ==> Sendable(es[k])
  {
    if es == [] then [] else EncodeEntry(es[0]) + EncodeAll(es[1..])
  }

  /** One entry at offset o, and the offset after it; none when the buffer is too short. */
  function DecodeEntry(b: seq<Byte>, o: nat): Option<(Entry, nat)> {
    if o + ONE_CHUNK > |b| then None
    else
      var length := FromBe32(b[o + SHA1_LEN..o + SHA1_LEN + 4]);
      var name := b[o..o + SHA1_LEN];
      if b[o + 24] != 1 then Some((Entry(name, length, None), o + ONE_CHUNK))
      else if o + ONE_CHUNK + length > |b| then None
      else Some((Entry(name, length, Some(b[o + ONE_CHUNK..o + ONE_CHUNK + length])), o + ONE_CHUNK + length))
  }

  function DecodeAll(b: seq<Byte>, o: nat, n: nat): Option<(seq<Entry>, nat)>
    decreases n
  {
    if n == 0 then Some(([], o))
    else
      match DecodeEntry(b, o)
      case None => None
      case Some((e, o')) =>
        Join([e], DecodeAll(b, o', n - 1))
  }

  lemma EntryFields(e: Entry)
    requires Sendable(e)
    ensures var x := EncodeEntry(e);
            && x[..SHA1_LEN] == e.name && x[SHA1_LEN..SHA1_LEN + 4] == Be32(e.length)
            && x[24] == (if e.content.Some? then 1 else 0) && (e.content.Some? ==> x[ONE_CHUNK..] == e.content.value)
  {
  }

  lemma SubSlice<T>(b: seq<T>, o: nat, n: nat, i: nat, j: nat)
    requires o + n <= |b| && i <= j <= n
    ensures b[o..o + n][i..j] == b[o + i..o + j]
  {
    var x, y := b[o..o + n][i..j], b[o + i..o + j];
    forall k | 0 <= k < j - i ensures x[k] == y[k] {
      assert x[k] == b[o..o + n][i + k] == b[o + i + k];
    }
  }

  /** Decoding what was encoded, wherever it stands in the buffer. */
  lemma EntryRoundTrip(b: seq<Byte>, o: nat, e: Entry)
    requires Sendable(e) && o + |EncodeEntry(e)| <= |b| && b[o..o + |EncodeEntry(e)|] == EncodeEntry(e)
    ensures DecodeEntry(b, o) == Some((e, o + |EncodeEntry(e)|))
  {
    var x := EncodeEntry(e);
    Be32RoundTrip(e.length);
    EntryFields(e);
    SubSlice(b, o, |x|, 0, SHA1_LEN);
    SubSlice(b, o, |x|, SHA1_LEN, SHA1_LEN + 4);
    assert b[o + 24] == b[o..o + |x|][24];
    SubSlice(b, o, |x|, ONE_CHUNK, |x|);
  }

  lemma {:induction false} AllRoundTrip(b: seq<Byte>, o: nat, es: seq<Entry>)
    requires forall k :: 0 <= k < |es| ==> Sendable(es[k])
    requires o + |EncodeAll(es)| <= |b| && b[o..o + |EncodeAll(es)|] == EncodeAll(es)
    ensures DecodeAll(b, o, |es|) == Some((es, o + |EncodeAll(es)|))
    decreases |es|
  {
    hide EncodeEntry, DecodeEntry;
    if es != [] {
      var x, rest := EncodeEntry(es[0]), EncodeAll(es[1..]);
      var all := EncodeAll(es);
      assert all == x + rest && all[..|x|] == x && all[|x|..] == rest;
      assert b[o..o + |x|] == b[o..o + |all|][..|x|];
      EntryRoundTrip(b, o, es[0]);
      assert b[o + |x|..o + |x| + |rest|] == b[o..o + |all|][|x|..];
      AllRoundTrip(b, o + |x|, es[1..]);
      assert [es[0]] + es[1..] == es;
    }
  }

  // ---------------------------------------------------------------- whole messages

  /** The two endpoints of the user connection. */
  type ConnId = c: seq<Byte> | |c| == 12 witness [0, 0, 0, 0, 0, 0, 0, 0, 0, 0, 0, 0]

  function Header(conn: ConnId, total: nat): (b: seq<Byte>)
    requires total < WORD
    ensures |b| == NAME_DELIVERY
  {
    [MAGIC_WAHEADER, TYPE_WANAMEDELIVERY] + Be32(total) + conn + [MAGIC_WANAMEDELIVERY] + Be32(1)
  }

  function TreeHeader(n: nat): (b: seq<Byte>)
    requires n < WORD
    ensures |b| == ONE_TREE
  {
    [1] + Be32(n)
  }

  predicate Fits(es: seq<Entry>) {
    && (forall k :: 0 <= k < |es| ==> Sendable(es[k]))
    && |es| < WORD && NAME_DELIVERY + ONE_TREE + |EncodeAll(es)| < WORD
  }

  function Message(conn: ConnId, es: seq<Entry>): (b: seq<Byte>)
    requires Fits(es)
    ensures |b| == NAME_DELIVERY + ONE_TREE + |EncodeAll(es)|
  {
    Header(conn, NAME_DELIVERY + ONE_TREE + |EncodeAll(es)|) + TreeHeader(|es|) + EncodeAll(es)
  }

  datatype Parsed = Parsed(conn: ConnId, entries: seq<Entry>, consumed: nat)

  /** VerifyControlHeader, then the walk over the single tree; none for anything malformed or incomplete. */
  function Parse(b: seq<Byte>): Option<Parsed> {
    if |b| < NAME_DELIVERY + ONE_TREE || b[0] != MAGIC_WAHEADER || b[1] != TYPE_WANAMEDELIVERY then None
    else
      var total := FromBe32(b[2..6]);
      if |b| < total || FromBe32(b[19..23]) != 1 then None
      else
        match DecodeAll(b, NAME_DELIVERY + ONE_TREE, FromBe32(b[24..28]))
        case None => None
        case Some((es, end)) => if end == total then Some(Parsed(b[6..18], es, total)) else None
  }

  /** Parsing the front of the stream returns the entries and consumes exactly the message. */
  lemma MessageRoundTrip(conn: ConnId, es: seq<Entry>, rest: seq<Byte>)
    requires Fits(es)
    ensures Parse(Message(conn, es) + rest) == Some(Parsed(conn, es, |Message(conn, es)|))
  {
    hide EncodeAll, DecodeAll;
    var m := Message(conn, es);
    var b := m + rest;
    var total := NAME_DELIVERY + ONE_TREE + |EncodeAll(es)|;
    var hdr := Header(conn, total);
    HeaderFields(conn, total);
    assert && b[0] == hdr[0] && b[1] == hdr[1] && b[2..6] == hdr[2..6] && b[6..18] == hdr[6..18]
           && b[19..23] == hdr[19..23];
    assert b[24..28] == Be32(|es|);
    Be32RoundTrip(|es|);
    assert b[28..28 + |EncodeAll(es)|] == EncodeAll(es);
    AllRoundTrip(b, 28, es);
  }

  lemma HeaderFields(conn: ConnId, total: nat)
    requires total < WORD
    ensures var h := Header(conn, total);
            && h[0] == MAGIC_WAHEADER && h[1] == TYPE_WANAMEDELIVERY && FromBe32(h[2..6]) == total
            && h[6..18] == conn && FromBe32(h[19..23]) == 1
  {
    var h := Header(conn, total);
    assert h[2..6] == Be32(total) && h[6..18] == conn && h[19..23] == Be32(1);
    Be32RoundTrip(total);
    Be32RoundTrip(1);
  }

  // ---------------------------------------------------------------- the program

  /** The length of the chunk part of the message, and the number of chunks. */
  method GetCandidateMessageLength(cl: seq<OneCandidate>, ghost psrc: seq<Byte>, ghost total: nat)
    returns (len: nat, items: nat)
    requires ListTiles(cl, 0, total) && (forall k :: 0 <= k < |cl| ==> cl[k].End() <= |psrc| && cl[k].length < WORD)
    ensures items == |cl| && len == |EncodeAll(Entries(cl, psrc))|
  {
    hide EncodeEntry;
    var offset: nat := 0;
    len, items := 0, 0;
    ghost var es := Entries(cl, psrc);
    while items < |cl|
      invariant 0 <= items <= |cl| && ListTiles(cl[items..], offset, total)
      invariant len + |EncodeAll(es[items..])| == |EncodeAll(es)|
    {
      var walk := cl[items];
      assert cl[items..][0] == walk && cl[items..][1..] == cl[items + 1..];
      assert es[items..][0] == es[items] && es[items..][1..] == es[items + 1..];
      assert offset == walk.offset;
      offset := offset + walk.length;
      len := len + ONE_CHUNK;
      if !walk.isHit || walk.length <= WAPROX_MIN_CHUNK_SIZE {
        len := len + walk.length;
      }
      items := items + 1;
    }
  }

  /** The bytes of one candidate in the message, named through the name array. */
  function ChunkBytes(c: OneCandidate, name: Sha1, psrc: seq<Byte>, offset: nat): seq<Byte>
    requires c.length < WORD && offset + c.length <= |psrc|
  {
    var fixed := name + Be32(c.length);
    if !c.isHit || c.length <= WAPROX_MIN_CHUNK_SIZE then fixed + [1] + psrc[offset..offset + c.length]
    else fixed + [0]
  }

  lemma ChunkBytesEncode(c: OneCandidate, psrc: seq<Byte>)
    requires c.length < WORD && c.End() <= |psrc|
    ensures ChunkBytes(c, c.sha1name, psrc, c.offset) == EncodeEntry(EntryOf(c, psrc))
  {
  }

  /** One entry for each candidate: its bytes as well, unless it is a hit of more than 30 bytes. */
  ghost predicate LaidOut(es: seq<Entry>, cl: seq<OneCandidate>, psrc: seq<Byte>) {
    |es| == |cl| && forall k :: 0 <= k < |cl| ==> cl[k].offset + cl[k].length <= |psrc| && LaidChunk(es[k], cl[k], psrc)
  }

  ghost predicate LaidChunk(e: Entry, c: OneCandidate, psrc: seq<Byte>)
    requires c.offset + c.length <= |psrc|
  {
    && e.name == c.sha1name && e.length == c.length
    && if c.isHit && c.length > WAPROX_MIN_CHUNK_SIZE then e.content == None
       else e.content == Some(psrc[c.offset..c.offset + c.length])
  }

  lemma EntriesLaid(cl: seq<OneCandidate>, psrc: seq<Byte>)
    requires forall k :: 0 <= k < |cl| ==> cl[k].End() <= |psrc|
    ensures LaidOut(Entries(cl, psrc), cl, psrc)
  {
    forall k | 0 <= k < |cl| ensures LaidChunk(Entries(cl, psrc)[k], cl[k], psrc) {
      assert Entries(cl, psrc)[k] == EntryOf(cl[k], psrc);
    }
  }

  /** Lay out the delivery of one block. */
  method BuildWANameTreeDelivery3(conn: ConnId, psrc: seq<Byte>, names: array<OneChunkName>, cl: seq<OneCandidate>,
                                  numItems: nat, newmsgLen: nat, ghost total: nat)
    returns (msg: seq<Byte>)
    requires ListTiles(cl, 0, total) && (forall k :: 0 <= k < |cl| ==> cl[k].End() <= |psrc| && cl[k].length < WORD)
    requires forall k :: 0 <= k < |cl| ==> cl[k].index < names.Length && names[cl[k].index].sha1name == cl[k].sha1name
    requires numItems == |cl| && newmsgLen == |EncodeAll(Entries(cl, psrc))| && Fits(Entries(cl, psrc))
    ensures msg == Message(conn, Entries(cl, psrc)) && |msg| == NAME_DELIVERY + ONE_TREE + newmsgLen
    ensures var p := Parse(msg);
            p.Some? && p.value.conn == conn && p.value.consumed == |msg| && LaidOut(p.value.entries, cl, psrc)
  {
    hide EncodeEntry, ChunkBytes, Header, TreeHeader, Parse, LaidOut;
    var offset: nat, i: nat := 0, 0;
    var body: seq<Byte> := [];
    ghost var es := Entries(cl, psrc);
    while i < |cl|
      invariant 0 <= i <= |cl| && ListTiles(cl[i..], offset, total)
      invariant body + EncodeAll(es[i..]) == EncodeAll(es)
    {
      var walk := cl[i];
      assert cl[i..][0] == walk && cl[i..][1..] == cl[i + 1..];
      assert es[i..][0] == es[i] && es[i..][1..] == es[i + 1..];
      ChunkBytesEncode(walk, psrc);
      body := body + ChunkBytes(walk, names[walk.index].sha1name, psrc, offset);
      offset := offset + walk.length;
      i := i + 1;
    }
    assert es[|cl|..] == [];
    msg := Header(conn, NAME_DELIVERY + ONE_TREE + |body|) + TreeHeader(numItems) + body;
    MessageRoundTrip(conn, es, []);
    assert msg + [] == msg;
    EntriesLaid(cl, psrc);
  }

  /** Entries in front of a decoded list. */
  function Join(es: seq<Entry>, r: Option<(seq<Entry>, nat)>): Option<(seq<Entry>, nat)> {
    match r
    case None => None
    case Some((rest, end)) => Some((es + rest, end))
  }

  lemma Joined(es: seq<Entry>, r: Option<(seq<Entry>, nat)>)
    ensures Join([], r) == r
    ensures r.Some? && r.value.0 == [] ==> Join(es, r) == Some((es, r.value.1))
  {
    if r.Some? {
      assert [] + r.value.0 == r.value.0;
      assert es + [] == es;
    }
  }

  lemma JoinedMore(es: seq<Entry>, e: Entry, r: Option<(seq<Entry>, nat)>)
    ensures Join(es, Join([e], r)) == Join(es + [e], r)
  {
    if r.Some? {
      assert es + ([e] + r.value.0) == es + [e] + r.value.0;
    }
  }

  /** The walk over the chunks of a delivery. */
  method ParseNames(b: seq<Byte>, start: nat, numNames: nat) returns (r: Option<(seq<Entry>, nat)>)
    ensures r == DecodeAll(b, start, numNames)
  {
    hide DecodeEntry;
    var es: seq<Entry>, offset: nat, j: nat := [], start, 0;
    Joined([], DecodeAll(b, start, numNames));
    while j < numNames
      invariant 0 <= j <= numNames
      invariant DecodeAll(b, start, numNames) == Join(es, DecodeAll(b, offset, numNames - j))
    {
      match DecodeEntry(b, offset)
      case None =>
        return None;
      case Some((e, next)) =>
        JoinedMore(es, e, DecodeAll(b, next, numNames - j - 1));
        es, offset := es + [e], next;
      j := j + 1;
    }
    Joined(es, Some(([], offset)));
    r := Some((es, offset));
  }

  /** The checks of the header, then the walk over the chunks. */
  method ParseMessage(b: seq<Byte>) returns (r: Option<Parsed>)
    ensures r == Parse(b)
  {
    hide DecodeAll;
    if |b| < NAME_DELIVERY + ONE_TREE || b[0] != MAGIC_WAHEADER || b[1] != TYPE_WANAMEDELIVERY {
      return None;
    }
    var total := FromBe32(b[2..6]);
    if |b| < total || FromBe32(b[19..23]) != 1 {
      return None;
    }
    var walk := ParseNames(b, NAME_DELIVERY + ONE_TREE, FromBe32(b[24..28]));
    match walk
    case None => r := None;
    case Some((es, end)) => r := if end == total then Some(Parsed(b[6..18], es, total)) else None;
  }
}
