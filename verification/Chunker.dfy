/**
 Content-defined chunk boundaries (waprox/rabinfinger2.c): a byte position is a boundary when
 the fingerprint of the window ending there has all the bits of a mask.  This module looks only
 at the fingers; fs[i] is the finger after byte i.
 */
module Boundary {
  import opened Word64

  datatype RabinBoundary = RabinBoundary(offset: nat, finger: Word)

  /** Every boundary matches min; a boundary that matches a nonzero max ends the chunk. */
  datatype Masks = Masks(min: Word, max: Word) {
    ghost predicate Valid() {
      max == {} || min <= max
    }

    predicate Cuts(f: Word) { Matches(f, min) }

    predicate Stops(f: Word) { max != {} && Matches(f, max) }
  }

  predicate Matches(finger: Word, mask: Word) {
    And(finger, mask) == mask
  }

  /** The boundaries found when scanning bytes i to end. */
  ghost function Scan(m: Masks, fs: seq<Word>, i: nat, end: nat): seq<RabinBoundary>
    requires end <= |fs|
    decreases end - i
  {
    if i >= end then []
    else
      var here := if m.Cuts(fs[i]) then [RabinBoundary(i + 1, fs[i])] else [];
      if m.Stops(fs[i]) then here else here + Scan(m, fs, i + 1, end)
  }

  /** Boundaries are in order, lie in the scanned part and carry their own finger. */
  ghost predicate Located(fs: seq<Word>, i: nat, end: nat, bs: seq<RabinBoundary>)
    requires end <= |fs|
  {
    && (forall k :: 0 <= k < |bs| ==> i < bs[k].offset <= end && bs[k].finger == fs[bs[k].offset - 1])
    && (forall k, l :: 0 <= k < l < |bs| ==> bs[k].offset < bs[l].offset)
  }

  lemma {:induction false} ScanLocated(m: Masks, fs: seq<Word>, i: nat, end: nat)
    requires end <= |fs|
    ensures Located(fs, i, end, Scan(m, fs, i, end))
    decreases end - i
  {
    hide Matches, Located;
    LocatedNothing(fs, i, end);
    if i < end {
      ScanLocated(m, fs, i + 1, end);
      var here := if m.Cuts(fs[i]) then [RabinBoundary(i + 1, fs[i])] else [];
      LocatedMore(fs, i, end, here, Scan(m, fs, i + 1, end));
      LocatedNothing(fs, i + 1, end);
      LocatedMore(fs, i, end, here, []);
      assert here + [] == here;
    }
  }

  lemma LocatedNothing(fs: seq<Word>, i: nat, end: nat)
    requires end <= |fs|
    ensures Located(fs, i, end, [])
  {
  }

  lemma LocatedMore(fs: seq<Word>, i: nat, end: nat, here: seq<RabinBoundary>, rest: seq<RabinBoundary>)
    requires i < end <= |fs| && Located(fs, i + 1, end, rest)
    requires here == [] || here == [RabinBoundary(i + 1, fs[i])]
    ensures Located(fs, i, end, here + rest)
  {
    var bs := here + rest;
    forall k | |here| <= k < |bs| ensures bs[k] == rest[k - |here|] {
    }
  }

  /** Offset o is a boundary of the list. */
  ghost predicate Has(bs: seq<RabinBoundary>, o: nat) {
    exists k :: 0 <= k < |bs| && bs[k].offset == o
  }

  /** Every boundary found cuts, and only the last may stop the scan. */
  lemma {:induction false} ScanCuts(m: Masks, fs: seq<Word>, i: nat, end: nat, k: nat)
    requires end <= |fs| && k < |Scan(m, fs, i, end)|
    ensures var bs := Scan(m, fs, i, end); m.Cuts(bs[k].finger) && (k < |bs| - 1 ==> !m.Stops(bs[k].finger))
    decreases end - i
  {
    var bs := Scan(m, fs, i, end);
    if !m.Stops(fs[i]) {
      var rest := Scan(m, fs, i + 1, end);
      var skipped := |bs| - |rest|;
      if k >= skipped {
        assert bs[k] == rest[k - skipped];
        ScanCuts(m, fs, i + 1, end, k - skipped);
      }
    }
  }

  lemma StopsCuts(m: Masks, f: Word)
    requires m.Valid() && m.Stops(f)
    ensures m.Cuts(f)
  {
  }

  /** Every cut up to the last boundary found is a boundary. */
  lemma {:induction false} ScanComplete(m: Masks, fs: seq<Word>, i: nat, end: nat, o: nat)
    requires m.Valid() && i < o <= end <= |fs| && m.Cuts(fs[o - 1])
    requires var bs := Scan(m, fs, i, end); bs == [] || o <= bs[|bs| - 1].offset
    ensures Has(Scan(m, fs, i, end), o)
    decreases end - i
  {
    var bs := Scan(m, fs, i, end);
    if o == i + 1 {
      assert bs[0].offset == o;
    } else if m.Stops(fs[i]) {
      StopsCuts(m, fs[i]);
      assert false;
    } else {
      var rest := Scan(m, fs, i + 1, end);
      if rest == [] && bs != [] {
        assert false;
      }
      ScanComplete(m, fs, i + 1, end, o);
      var k :| 0 <= k < |rest| && rest[k].offset == o;
      assert bs[|bs| - |rest| + k] == rest[k];
    }
  }

  /** The finger at offset o has all the bits of the mask. */
  ghost predicate HasBits(fs: seq<Word>, o: nat, mask: Word) {
    0 < o <= |fs| && mask <= fs[o - 1]
  }

  /** The finger at offset o has all the bits of a mask that has some. */
  ghost predicate Ends(fs: seq<Word>, o: nat, mask: Word) {
    mask != {} && HasBits(fs, o, mask)
  }

  /**
   The boundary list that masks and fingers ask for, bit by bit.  The chunk ends at the first offset
   behind from that has the bits of a nonzero max; up to there the boundaries are the offsets that have
   the bits of min.  When there are none, the end of the input is the only one.
   */
  ghost predicate CutRight(m: Masks, fs: seq<Word>, from: nat, end: nat, bs: seq<RabinBoundary>)
    requires end <= |fs|
  {
    && bs != []
    && if forall o :: from < o <= end ==> !HasBits(fs, o, m.min) then |bs| == 1 && bs[0].offset == end
       else
         var last := bs[|bs| - 1].offset;
         && Located(fs, from, end, bs)
         && (forall k :: 0 <= k < |bs| - 1 ==> !Ends(fs, bs[k].offset, m.max))
         && (forall o :: from < o <= last ==> (Has(bs, o) <==> HasBits(fs, o, m.min)))
         && (Ends(fs, last, m.max) || forall o :: last < o <= end ==> !HasBits(fs, o, m.min))
         && (Ends(fs, last, m.max) || forall o :: from < o <= end ==> !Ends(fs, o, m.max))
  }

  lemma CutsBits(m: Masks, fs: seq<Word>, o: nat)
    requires 0 < o <= |fs|
    ensures m.Cuts(fs[o - 1]) <==> HasBits(fs, o, m.min)
    ensures m.Stops(fs[o - 1]) <==> Ends(fs, o, m.max)
  {
  }

  /** A scan that is not stopped finds every cut of the input, and none of them stops it. */
  lemma {:induction false} ScanOpen(m: Masks, fs: seq<Word>, i: nat, end: nat, o: nat)
    requires m.Valid() && i < o <= end <= |fs|
    requires var bs := Scan(m, fs, i, end); bs == [] || !m.Stops(bs[|bs| - 1].finger)
    ensures !m.Stops(fs[o - 1]) && (m.Cuts(fs[o - 1]) ==> Has(Scan(m, fs, i, end), o))
    decreases end - i
  {
    hide Matches;
    var bs := Scan(m, fs, i, end);
    if m.Stops(fs[i]) {
      StopsCuts(m, fs[i]);
      assert false;
    } else if o == i + 1 {
      assert m.Cuts(fs[i]) ==> bs[0].offset == o;
    } else {
      var rest := Scan(m, fs, i + 1, end);
      assert rest != [] ==> bs[|bs| - 1] == rest[|rest| - 1];
      ScanOpen(m, fs, i + 1, end, o);
      if m.Cuts(fs[o - 1]) {
        var k :| 0 <= k < |rest| && rest[k].offset == o;
        assert bs[|bs| - |rest| + k] == rest[k];
      }
    }
  }

  /** The list a scan yields is the one the bits ask for. */
  lemma ScanRight(m: Masks, fs: seq<Word>, from: nat, end: nat, f: Word)
    requires m.Valid() && end <= |fs|
    ensures CutRight(m, fs, from, end, AtLeastOne(m, fs, from, end, f))
  {
    hide Masks.Cuts, Masks.Stops, HasBits, Ends, Scan, Masks.Valid;
    var bs := Scan(m, fs, from, end);
    ScanLocated(m, fs, from, end);
    forall o | from < o <= end
      ensures HasBits(fs, o, m.min) ==> bs != [] && (o <= bs[|bs| - 1].offset ==> Has(bs, o))
      ensures Has(bs, o) ==> HasBits(fs, o, m.min)
      ensures bs == [] || !m.Stops(bs[|bs| - 1].finger) ==>
                !Ends(fs, o, m.max) && (HasBits(fs, o, m.min) ==> Has(bs, o))
    {
      CutsBits(m, fs, o);
      ScanFinds(m, fs, from, end, o);
    }
    forall k | 0 <= k < |bs| ensures k < |bs| - 1 ==> !Ends(fs, bs[k].offset, m.max)
      ensures HasBits(fs, bs[k].offset, m.min) && (m.Stops(bs[k].finger) <==> Ends(fs, bs[k].offset, m.max))
    {
      ScanCuts(m, fs, from, end, k);
      CutsBits(m, fs, bs[k].offset);
    }
    if bs != [] {
      assert HasBits(fs, bs[0].offset, m.min);
    }
  }

  /** Which offsets a scan finds. */
  lemma ScanFinds(m: Masks, fs: seq<Word>, i: nat, end: nat, o: nat)
    requires m.Valid() && i < o <= end <= |fs|
    ensures var bs := Scan(m, fs, i, end);
            && (Has(bs, o) ==> m.Cuts(fs[o - 1]))
            && (m.Cuts(fs[o - 1]) ==> bs != [] && (o <= bs[|bs| - 1].offset ==> Has(bs, o)))
            && (bs == [] || !m.Stops(bs[|bs| - 1].finger) ==>
                  !m.Stops(fs[o - 1]) && (m.Cuts(fs[o - 1]) ==> Has(bs, o)))
  {
    hide Masks.Cuts, Masks.Stops, Scan, Masks.Valid;
    var bs := Scan(m, fs, i, end);
    ScanLocated(m, fs, i, end);
    if bs == [] || !m.Stops(bs[|bs| - 1].finger) {
      ScanOpen(m, fs, i, end, o);
    }
    if m.Cuts(fs[o - 1]) && (bs == [] || o <= bs[|bs| - 1].offset) {
      ScanComplete(m, fs, i, end, o);
    }
    if Has(bs, o) {
      var k :| 0 <= k < |bs| && bs[k].offset == o;
      ScanCuts(m, fs, i, end, k);
    }
  }

  /** What the scanning loop has collected when it reaches byte i. */
  ghost predicate Collected(m: Masks, fs: seq<Word>, from: nat, end: nat, i: nat, bounds: seq<RabinBoundary>,
                            stopped: bool) {
    && end <= |fs|
    && if stopped then bounds == Scan(m, fs, from, end) && bounds != []
       else bounds + Scan(m, fs, i, end) == Scan(m, fs, from, end)
  }

  lemma CollectedStep(m: Masks, fs: seq<Word>, from: nat, end: nat, i: nat, bounds: seq<RabinBoundary>)
    requires m.Valid() && Collected(m, fs, from, end, i, bounds, false) && i < end
    ensures var bounds' := if m.Cuts(fs[i]) then bounds + [RabinBoundary(i + 1, fs[i])] else bounds;
            Collected(m, fs, from, end, i + 1, bounds', m.Stops(fs[i]))
  {
    if m.Stops(fs[i]) {
      StopsCuts(m, fs[i]);
    }
  }

  /** A scan is the same when the input is cut at the last boundary it finds. */
  lemma {:induction false} ScanPrefix(m: Masks, fs: seq<Word>, i: nat, end: nat, n: nat)
    requires n <= end <= |fs|
    requires var bs := Scan(m, fs, i, end); if bs == [] then i >= n || n == end else bs[|bs| - 1].offset == n
    ensures Scan(m, fs[..n], i, n) == Scan(m, fs, i, end)
    decreases end - i
  {
    ScanLocated(m, fs, i, end);
    if i < n && !m.Stops(fs[i]) {
      ScanLocated(m, fs, i + 1, end);
      ScanPrefix(m, fs, i + 1, end, n);
    }
  }

  /** The boundaries found, or the end of the input when there is none. */
  ghost function AtLeastOne(m: Masks, fs: seq<Word>, from: nat, end: nat, f: Word): (bs: seq<RabinBoundary>)
    requires end <= |fs|
    ensures |bs| >= 1
  {
    var found := Scan(m, fs, from, end);
    if found != [] then found else [RabinBoundary(end, f)]
  }

  /** The last boundary of a list. */
  function Last(bs: seq<RabinBoundary>): nat
    requires bs != []
  {
    bs[|bs| - 1].offset
  }

  lemma AtLeastOnePrefix(m: Masks, fs: seq<Word>, from: nat, end: nat, f: Word, g: Word)
    requires end <= |fs| && (Last(AtLeastOne(m, fs, from, end, f)) == end ==> f == g)
    ensures var bs := AtLeastOne(m, fs, from, end, f);
            Last(bs) <= end && AtLeastOne(m, fs[..Last(bs)], from, Last(bs), g) == bs
  {
    var n := Last(AtLeastOne(m, fs, from, end, f));
    ScanLocated(m, fs, from, end);
    ScanPrefix(m, fs, from, end, n);
  }
}

/** The chunker: fingers of a buffer, its boundary list, and re-chunking. */
module Chunker {
  import opened Bytes
  import opened Gf2
  import opened Word64
  import opened Rabin
  import opened Boundary

  /** Modulus, window size and first position scanned. */
  datatype Params = Params(poly: Word, window: nat, from: nat) {
    predicate Valid() {
      63 in poly && 1 <= window <= 256
    }
  }

  function Zeros(n: nat): seq<Byte> {
    seq(n, _ => 0)
  }

  /** The last bytes of start + fed, as many as start has. */
  ghost function LastBytes(start: seq<Byte>, fed: seq<Byte>): (w: seq<Byte>)
    ensures |w| == |start|
  {
    (start + fed)[|fed|..]
  }

  /** src[from..to], empty when the scan starts later. */
  ghost function Fed(src: seq<Byte>, from: nat, to: nat): seq<Byte>
    requires to <= |src|
  {
    if from <= to then src[from..to] else []
  }

  /** The window after the bytes from p.from to position to have been fed to a zero window. */
  ghost function WindowAt(p: Params, src: seq<Byte>, to: nat): seq<Byte>
    requires to <= |src|
  {
    LastBytes(Zeros(p.window), Fed(src, p.from, to))
  }

  ghost function Windows(p: Params, src: seq<Byte>): (ws: seq<seq<Byte>>)
    requires p.Valid()
    ensures |ws| == |src| + 1
    ensures forall i :: 0 <= i <= |src| ==> ws[i] == WindowAt(p, src, i)
    ensures forall i {:trigger src[i]} :: p.from <= i < |src| ==> |ws[i]| >= 1 && ws[i + 1] == ws[i][1..] + [src[i]]
  {
    var ws := seq(|src| + 1, i requires 0 <= i <= |src| => WindowAt(p, src, i));
    assert forall i {:trigger src[i]} :: p.from <= i < |src| ==> ws[i + 1] == ws[i][1..] + [src[i]] by {
      forall i {:trigger src[i]} | p.from <= i < |src| ensures ws[i + 1] == ws[i][1..] + [src[i]] {
        LastBytesStep(Zeros(p.window), Fed(src, p.from, i), src[i]);
        assert Fed(src, p.from, i + 1) == Fed(src, p.from, i) + [src[i]];
      }
    }
    ws
  }

  /** The finger after the bytes from p.from to position to. */
  ghost function FingerAt(p: Params, src: seq<Byte>, to: nat): Word
    requires p.Valid() && to <= |src|
  {
    Print(WindowAt(p, src, to), p.poly)
  }

  /** The finger after each byte of src. */
  ghost function Fingers(p: Params, src: seq<Byte>): (fs: seq<Word>)
    requires p.Valid()
    ensures |fs| == |src|
    ensures forall i :: 0 <= i < |src| ==> fs[i] == FingerAt(p, src, i + 1)
  {
    seq(|src|, i requires 0 <= i < |src| => FingerAt(p, src, i + 1))
  }

  /** The boundary list of the first end bytes of src: never empty. */
  ghost function Boundaries(p: Params, m: Masks, src: seq<Byte>, end: nat): (bs: seq<RabinBoundary>)
    requires p.Valid() && end <= |src|
    ensures |bs| >= 1
  {
    AtLeastOne(m, Fingers(p, src), p.from, end, FingerAt(p, src, end))
  }

  // ---------------------------------------------------------------- re-chunking

  lemma FingerPrefix(p: Params, src: seq<Byte>, to: nat, n: nat)
    requires p.Valid() && to <= n <= |src|
    ensures FingerAt(p, src[..n], to) == FingerAt(p, src, to)
  {
    assert Fed(src[..n], p.from, to) == Fed(src, p.from, to);
  }

  lemma FingersPrefix(p: Params, src: seq<Byte>, n: nat)
    requires p.Valid() && n <= |src|
    ensures Fingers(p, src[..n]) == Fingers(p, src)[..n]
  {
    forall i | 0 <= i < n ensures Fingers(p, src[..n])[i] == Fingers(p, src)[i] {
      FingerPrefix(p, src, i + 1, n);
    }
  }

  /** The block a scan cuts off has, on its own, the same boundaries and is consumed whole. */
  lemma Rechunk(p: Params, m: Masks, src: seq<Byte>, end: nat)
    requires p.Valid() && end <= |src|
    ensures var bs := Boundaries(p, m, src, end);
            Last(bs) <= end && Boundaries(p, m, src[..Last(bs)], Last(bs)) == bs
  {
    var bs := Boundaries(p, m, src, end);
    var n := Last(bs);
    var f := FingerAt(p, src, end);
    var g := if n <= end then FingerAt(p, src[..n], n) else f;
    if n == end {
      FingerPrefix(p, src, n, n);
    }
    AtLeastOnePrefix(m, Fingers(p, src), p.from, end, f, g);
    FingersPrefix(p, src, n);
  }

  // ---------------------------------------------------------------- the program

  class RabinCtx {
    const rp: RabinPoly
    const minSize: nat
    const maxSize: nat
    var finger: Word

    constructor (poly: Word, window: nat, min: nat, max: nat)
      requires 63 in poly && 1 <= window <= 256
      ensures rp.Valid() && rp.irPoly == poly && rp.regionSize == window && minSize == min && maxSize == max
      ensures fresh(rp) && fresh(rp.moduloT) && fresh(rp.regionT) && fresh(rp.regionBuf)
    {
      rp := new RabinPoly(poly, window);
      minSize, maxSize, finger := min, max, ZERO;
    }

    ghost function ParamsOf(): Params {
      Params(rp.irPoly, rp.regionSize, minSize)
    }

    /** Reset the window, then collect the boundaries of one chunk of src. */
    method GetRabinChunkSizeEx(src: seq<Byte>, m: Masks)
      returns (size: nat, bounds: seq<RabinBoundary>)
      requires rp.Valid() && m.Valid()
      modifies this`finger, rp`regionPos, rp.regionBuf
      ensures rp.Valid()
      ensures bounds == Boundaries(ParamsOf(), m, src, if |src| <= maxSize then |src| else maxSize)
      ensures CutRight(m, Fingers(ParamsOf(), src), minSize, if |src| <= maxSize then |src| else maxSize, bounds)
      ensures size == Last(bounds)
    {
      hide Slides, Windows, Fingers, FingerAt, WindowAt, Print, ModuloTable, RegionTable, Masks.Valid, CutRight;
      var end := if |src| <= maxSize then |src| else maxSize;
      rp.ZeroRegionBuf();
      finger := ZERO;
      bounds := [];
      ghost var p, ws, fs := ParamsOf(), Windows(ParamsOf(), src), Fingers(ParamsOf(), src);
      FingersOfWindows(p, src, rp.fingerOf, ws, fs);
      ScanRight(m, fs, minSize, end, FingerAt(p, src, end));
      if minSize < end {
        bounds := Collect(src, m, end, ws, fs);
      }
      if |bounds| == 0 {
        bounds := [RabinBoundary(end, finger)];
      }
      size := bounds[|bounds| - 1].offset;
    }

    /** The scanning loop, over the windows ws and fingers fs that src gives rise to. */
    method Collect(src: seq<Byte>, m: Masks, end: nat, ghost ws: seq<seq<Byte>>, ghost fs: seq<Word>)
      returns (bounds: seq<RabinBoundary>)
      requires rp.Valid() && m.Valid() && minSize < end <= |src| == |fs| && |ws| == |src| + 1
      requires rp.Window() == ws[minSize] && finger == rp.fingerOf(ws[minSize])
      requires Slides(minSize, src, rp.fingerOf, ws, fs)
      modifies this`finger, rp`regionPos, rp.regionBuf
      ensures rp.Valid() && bounds == Scan(m, fs, minSize, end)
      ensures bounds == [] ==> finger == fs[end - 1]
    {
      bounds := [];
      var i := minSize;
      var stopped := false;
      while i < end && !stopped
        invariant minSize <= i <= end && rp.Valid()
        invariant rp.Window() == ws[i] && finger == rp.fingerOf(ws[i])
        invariant Collected(m, fs, minSize, end, i, bounds, stopped)
        decreases end - i, !stopped
      {
        finger := rp.ConcatByte(finger, src[i]);
        assert rp.Window() == ws[i + 1];
        assert finger == fs[i];
        CollectedStep(m, fs, minSize, end, i, bounds);
        if m.Cuts(finger) {
          bounds := bounds + [RabinBoundary(i + 1, finger)];
        }
        if m.Stops(finger) {
          stopped := true;
        }
        i := i + 1;
      }
    }
  }

  /** From position from on each byte slides the window by one, and fs are the fingers of the windows. */
  ghost predicate Slides(from: nat, src: seq<Byte>, fingerOf: seq<Byte> -> Word, ws: seq<seq<Byte>>, fs: seq<Word>) {
    && |ws| == |src| + 1 && |fs| == |src|
    && (forall i {:trigger src[i]} :: from <= i < |src| ==> |ws[i]| >= 1 && ws[i + 1] == ws[i][1..] + [src[i]])
    && (forall i {:trigger fs[i]} :: 0 <= i < |src| ==> fs[i] == fingerOf(ws[i + 1]))
  }

  /** The fingers of src in terms of its windows; the window is empty where the scan starts. */
  lemma FingersOfWindows(p: Params, src: seq<Byte>, fingerOf: seq<Byte> -> Word, ws: seq<seq<Byte>>, fs: seq<Word>)
    requires p.Valid() && ws == Windows(p, src) && fs == Fingers(p, src)
    requires forall s: seq<Byte> {:trigger Print(s, p.poly)} :: fingerOf(s) == Print(s, p.poly)
    ensures Slides(p.from, src, fingerOf, ws, fs) && |ws| == |src| + 1 && |fs| == |src|
    ensures forall i {:trigger FingerAt(p, src, i)} :: 0 < i <= |src| ==> FingerAt(p, src, i) == fs[i - 1]
    ensures forall i {:trigger FingerAt(p, src, i)} :: 0 <= i <= |src| && i <= p.from ==> FingerAt(p, src, i) == {}
    ensures p.from <= |src| ==> ws[p.from] == Zeros(p.window)
    ensures fingerOf(Zeros(p.window)) == {}
  {
    PrintZeros(p.poly, p.window);
    forall i | 0 <= i <= |src| && i <= p.from ensures WindowAt(p, src, i) == Zeros(p.window) {
      assert Fed(src, p.from, i) == [];
    }
  }

  lemma LastBytesStep(start: seq<Byte>, fed: seq<Byte>, b: Byte)
    requires |start| >= 1
    ensures LastBytes(start, fed + [b]) == LastBytes(start, fed)[1..] + [b]
  {
  }

  /** An empty window has finger zero. */
  lemma {:induction false} PolyOfZeros(n: nat)
    ensures PolyOf(Zeros(n)) == {}
  {
    if n > 0 {
      PolyOfZeros(n - 1);
      assert Zeros(n)[..n - 1] == Zeros(n - 1);
    }
  }

  lemma PrintZeros(poly: Word, n: nat)
    requires 63 in poly
    ensures Print(Zeros(n), poly) == {}
  {
    PolyOfZeros(n);
    CongruentRefl({}, poly);
    RemUnique({}, {}, poly, 63);
  }

  // ---------------------------------------------------------------- masks

  const MIN_SIZE_LOG := 5
  const NUM_SIZES := 13

  /** The low bits, all ones, of the largest power of two not above size. */
  ghost predicate MaskFor(size: nat, mask: Word) {
    exists k: nat :: MIN_SIZE_LOG <= k < 64 && Pow2(k) <= size < 2 * Pow2(k) && mask == Ones(k)
  }

  method GetMRCMask(size: nat) returns (mask: Word)
    requires Pow2(MIN_SIZE_LOG) <= size < Pow2(MIN_SIZE_LOG + NUM_SIZES - 1)
    ensures MaskFor(size, mask)
  {
    var i := 0;
    while size >= Pow2(MIN_SIZE_LOG + i + 1)
      invariant i < NUM_SIZES - 1 && Pow2(MIN_SIZE_LOG + i) <= size
      decreases NUM_SIZES - i
    {
      i := i + 1;
    }
    mask := Ones(MIN_SIZE_LOG + i);
  }
}
