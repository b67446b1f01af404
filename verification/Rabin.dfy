/** Bytes, the unit of every buffer. */
module Bytes {
  type Byte = b: nat | b < 256
}

/**
 The table-driven rolling fingerprint of waprox/rabinfinger2.c, and its meaning: the remainder,
 modulo a polynomial of degree 63, of the polynomial spelled by the bytes in the window.
 */
module Rabin {
  import opened Bytes
  import opened Gf2
  import opened Word64
  import opened Fingerprint

  /** The modulus the program uses; any word with its top bit set would do. */
  const IRREDUCIBLE_POLY: nat := 0x946d_1d8d_cfee_41e5

  /** The bits of s, most significant byte first, as coefficients. */
  ghost function PolyOf(s: seq<Byte>): Poly {
    if s == [] then {} else Add(Shift(PolyOf(s[..|s| - 1]), 8), BitsOf(s[|s| - 1]))
  }

  /** The fingerprint of a byte sequence. */
  ghost function Print(s: seq<Byte>, poly: Word): (w: Word)
    requires 63 in poly
  {
    PrintBelow(s, poly);
    Rem(PolyOf(s), poly, 63)
  }

  lemma PrintBelow(s: seq<Byte>, poly: Word)
    requires 63 in poly
    ensures Below(Rem(PolyOf(s), poly, 63), 63)
  {
    RemUnique(PolyOf(s), Rem(PolyOf(s), poly, 63), poly, 63);
  }

  /** The entry the modulo table holds for the eight bits i that leave the top. */
  ghost function ModuloEntry(poly: Word, i: nat): Poly
    requires 63 in poly
  {
    Add(Rem(Shift(BitsOf(i), 63), poly, 63), if 0 in BitsOf(i) then {63} else {})
  }

  /** The entry the region table holds for the byte i that leaves a window of size bytes. */
  ghost function RegionEntry(poly: Word, size: nat, i: nat): Poly
    requires 63 in poly && size > 0
  {
    Rem(Shift(BitsOf(i), 8 * (size - 1)), poly, 63)
  }

  /** The first n entries of the modulo table are right. */
  ghost predicate ModuloTable(poly: Word, t: seq<Word>, n: nat)
    requires 63 in poly && n <= |t|
  {
    forall i {:trigger ModuloEntry(poly, i)} :: 0 <= i < n ==> t[i] == ModuloEntry(poly, i)
  }

  /** The first n entries of the region table are right. */
  ghost predicate RegionTable(poly: Word, size: nat, t: seq<Word>, n: nat)
    requires 63 in poly && size > 0 && n <= |t|
  {
    forall i {:trigger RegionEntry(poly, size, i)} :: 0 <= i < n ==> t[i] == RegionEntry(poly, size, i)
  }

  // ---------------------------------------------------------------- arithmetic of the tables

  lemma ByteBits(b: nat)
    requires b < 256
    ensures Below(BitsOf(b), 8)
  {
    assert Pow2(8) == 2 * Pow2(7) == 4 * Pow2(6) == 8 * Pow2(5) == 16 * Pow2(4) == 32 * Pow2(3);
    assert Pow2(3) == 2 * Pow2(2) == 4 * Pow2(1) == 8;
    BitsOfBelow(b, 8);
  }

  /** A number times t, reduced, is the number times anything t is the remainder of. */
  lemma TableProduct(poly: Word, i: nat, e: nat, t: Word, product: Poly, g: Poly)
    requires 63 in poly && i < 256
    requires IsRemainder({e}, t, poly, 63)
    requires product == Mul(BitsOf(i), t) && IsRemainder(product, g, poly, 63)
    ensures g == Rem(Shift(BitsOf(i), e), poly, 63)
  {
    var q := BitsOf(i);
    ByteBits(i);
    CongruentMul(q, {e}, t, poly, 64);
    MulAtBound(q, t, 64);
    MulUpToMonomial(q, e, 64);
    CongruentTrans(Shift(q, e), product, g, poly);
    RemUnique(Shift(q, e), g, poly, 63);
  }

  /** Tagging an entry with the bit that is to leave the word. */
  lemma TagTop(g: Word, i: nat)
    requires i < 256 && Below(g, 63) && Below(BitsOf(i), 64)
    ensures Or(g, Shl(BitsOf(i), 63)) == Add(g, if 0 in BitsOf(i) then {63} else {})
  {
  }

  /** The bits of f that stay in the word when eight more come in. */
  function Kept(f: Poly): (low: Poly)
    ensures forall e: nat :: e in low <==> 8 <= e < 63 && e - 8 in f
  {
    set e | e in f && e < 55 :: e + 8
  }

  /** Shifting by a byte keeps the low bits and moves the top eight past the modulus. */
  lemma ShiftSplits(f: Word, t: Poly)
    requires Below(f, 63) && t == Shr(f, 55)
    ensures Shift(f, 8) == Add(Kept(f), Shift(t, 63))
  {
    forall e: nat ensures e in Shift(f, 8) <==> e in Add(Kept(f), Shift(t, 63)) {
      if e >= 63 {
        assert e - 63 in t <==> e - 8 in f;
      }
    }
  }

  /** The word the program computes: kept bits, new byte and the table's remainder. */
  lemma ResultSplits(f: Word, bits: Word, t: Poly, r: Poly, entry: Word)
    requires Below(f, 63) && Below(bits, 8) && t == Shr(f, 55) && Below(r, 63)
    requires entry == Add(r, if 0 in t then {63} else {})
    ensures Xor(Or(Shl(f, 8), bits), entry) == Add(Add(Kept(f), bits), r)
  {
    var result := Xor(Or(Shl(f, 8), bits), entry);
    forall e: nat ensures e in result <==> e in Add(Add(Kept(f), bits), r) {
      assert e in Or(Shl(f, 8), bits) <==> e in bits || (8 <= e < 64 && e - 8 in f);
      assert 0 in t <==> 55 in f;
    }
  }

  /** Appending eight bits to a reduced polynomial: the table undoes what the shift loses. */
  lemma AppendByte(poly: Word, a: Poly, f: Word, bits: Word, top: nat, entry: Word)
    requires 63 in poly && Below(bits, 8)
    requires f == Rem(a, poly, 63)
    requires BitsOf(top) == Shr(f, 55) && entry == ModuloEntry(poly, top)
    ensures Xor(Or(Shl(f, 8), bits), entry) == Rem(Add(Shift(a, 8), bits), poly, 63)
  {
    var t := BitsOf(top);
    var r := Rem(Shift(t, 63), poly, 63);
    RemUnique(Shift(t, 63), r, poly, 63);
    RemUnique(a, f, poly, 63);
    ResultSplits(f, bits, t, r, entry);
    ResultClass(poly, f, bits, t, r);
    AppendClass(poly, a, f, bits);
    var result := Xor(Or(Shl(f, 8), bits), entry);
    CongruentTrans(Add(Shift(a, 8), bits), Add(Shift(f, 8), bits), result, poly);
    RemUnique(Add(Shift(a, 8), bits), result, poly, 63);
  }

  lemma ResultClass(poly: Word, f: Word, bits: Poly, t: Poly, r: Poly)
    requires Below(f, 63) && t == Shr(f, 55) && Congruent(Shift(t, 63), r, poly)
    ensures Congruent(Add(Shift(f, 8), bits), Add(Add(Kept(f), bits), r), poly)
  {
    var rest := Add(Kept(f), bits);
    ShiftSplits(f, t);
    CongruentRefl(rest, poly);
    CongruentAdd(rest, rest, Shift(t, 63), r, poly);
    assert Add(rest, Shift(t, 63)) == Add(Shift(f, 8), bits);
  }

  lemma AppendClass(poly: Word, a: Poly, f: Poly, bits: Poly)
    requires Congruent(a, f, poly)
    ensures Congruent(Add(Shift(a, 8), bits), Add(Shift(f, 8), bits), poly)
  {
    CongruentShift(a, f, 8, poly);
    CongruentRefl(bits, poly);
    CongruentAdd(Shift(a, 8), Shift(f, 8), bits, bits, poly);
  }

  lemma HornerStep(x: Poly, k: nat, y: Poly, z: Poly)
    ensures Add(Shift(Add(Shift(x, k), y), 8), z) == Add(Shift(x, k + 8), Add(Shift(y, 8), z))
  {
  }

  lemma HornerStart(x: Poly)
    ensures Add(Shift({}, 8), x) == Add(Shift(x, 0), {})
  {
  }

  /** The oldest byte contributes the top term. */
  lemma {:induction false} PolyOfCons(b: Byte, s: seq<Byte>)
    ensures PolyOf([b] + s) == Add(Shift(BitsOf(b), 8 * |s|), PolyOf(s))
  {
    hide BitsOf, Add, Shift;
    var t := [b] + s;
    if s == [] {
      assert t[..0] == [];
      HornerStart(BitsOf(b));
    } else {
      var n := |s| - 1;
      PolyOfCons(b, s[..n]);
      assert t[..|t| - 1] == [b] + s[..n];
      HornerStep(BitsOf(b), 8 * n, PolyOf(s[..n]), BitsOf(s[n]));
    }
  }

  /** Dropping the oldest byte of a window. */
  lemma DropByte(poly: Word, b: Byte, s: seq<Byte>, f: Word, entry: Word)
    requires 63 in poly && f == Print([b] + s, poly) && entry == RegionEntry(poly, |s| + 1, b)
    ensures Xor(f, entry) == Print(s, poly)
  {
    PolyOfCons(b, s);
    var lead := Shift(BitsOf(b), 8 * |s|);
    RemUnique(Add(lead, PolyOf(s)), f, poly, 63);
    RemUnique(lead, entry, poly, 63);
    CongruentAdd(Add(lead, PolyOf(s)), f, lead, entry, poly);
    assert Add(Add(lead, PolyOf(s)), lead) == PolyOf(s);
    RemUnique(PolyOf(s), Xor(f, entry), poly, 63);
  }

  // ---------------------------------------------------------------- the rolling state

  lemma WrapAround(pos: nat, size: nat)
    requires pos < size
    ensures (pos + 1) % size == if pos + 1 == size then 0 else pos + 1
  {
  }

  class RabinPoly {
    const moduloT: array<Word>
    const regionT: array<Word>
    const regionBuf: array<Byte>
    const regionSize: nat
    const irPoly: Word
    const shift: nat
    var regionPos: nat

    /** The fingerprint the tables are for. */
    ghost const fingerOf: seq<Byte> -> Word

    ghost predicate Valid()
      reads this, moduloT, regionT, regionBuf
    {
      && moduloT.Length == 256 && regionT.Length == 256 && regionBuf.Length == 256
      && moduloT != regionT
      && 1 <= regionSize <= 256 && regionPos < regionSize
      && 63 in irPoly && shift == 55
      && (forall s: seq<Byte> {:trigger Print(s, irPoly)} :: fingerOf(s) == Print(s, irPoly))
      && ModuloTable(irPoly, moduloT[..], 256)
      && RegionTable(irPoly, regionSize, regionT[..], 256)
    }

    /** The last regionSize bytes, oldest first. */
    ghost function Window(): (w: seq<Byte>)
      requires Valid()
      reads this, moduloT, regionT, regionBuf
      ensures |w| == regionSize
    {
      regionBuf[regionPos..regionSize] + regionBuf[..regionPos]
    }

    /** InitializeRabin: fill both tables for a modulus of degree 63. */
    constructor (poly: Word, size: nat)
      requires 63 in poly && 1 <= size <= 256
      ensures Valid() && irPoly == poly && regionSize == size && regionPos == 0
      ensures fresh(moduloT) && fresh(regionT) && fresh(regionBuf)
    {
      var modulo := new Word[256];
      var region := new Word[256];
      var k := GetDegree(poly);
      assert k == 63;
      FillModulo(poly, k, modulo);
      FillRegion(poly, k, size, modulo, region);
      moduloT, regionT := modulo, region;
      regionBuf := new Byte[256](_ => 0);
      regionSize, irPoly, shift, regionPos := size, poly, k - 8, 0;
      fingerOf := s => Print(s, poly);
    }

    method ZeroRegionBuf()
      requires Valid()
      modifies regionBuf
      ensures Valid()
      ensures Window() == seq(regionSize, _ => 0)
    {
      for i := 0 to 256
        invariant forall j :: 0 <= j < i ==> regionBuf[j] == 0
      {
        regionBuf[i] := 0;
      }
    }

    /** Overwrite the oldest byte and advance the position. */
    method Replace(b: Byte)
      requires Valid()
      modifies this`regionPos, regionBuf
      ensures Valid()
      ensures Window() == old(Window())[1..] + [b]
    {
      ghost var buf, pos := regionBuf[..], regionPos;
      regionBuf[regionPos] := b;
      assert regionBuf[..] == buf[pos := b];
      WrapAround(regionPos, regionSize);
      regionPos := (regionPos + 1) % regionSize;
      if pos + 1 == regionSize {
        assert regionBuf[..pos] == buf[..pos];
      } else {
        assert regionBuf[pos + 1..regionSize] == buf[pos + 1..regionSize];
        assert regionBuf[..pos + 1] == buf[..pos] + [b];
      }
    }

    /** Slide the window by one byte. */
    method ConcatByte(finger: Word, b: Byte) returns (f: Word)
      requires Valid() && finger == fingerOf(Window())
      modifies this`regionPos, regionBuf
      ensures Valid()
      ensures Window() == old(Window())[1..] + [b]
      ensures f == fingerOf(Window())
    {
      ghost var w := Window();
      var out := regionBuf[regionPos];
      var g := Xor(finger, regionT[out]);
      assert w == [out] + w[1..];
      assert finger == Print(w, irPoly);
      DropByte(irPoly, out, w[1..], finger, regionT[out]);
      Replace(b);
      f := Append(irPoly, shift, moduloT, g, b, PolyOf(w[1..]));
      assert Window()[..|w| - 1] == w[1..];
      assert f == Print(Window(), irPoly);
    }
  }

  /** (f << 8 | b) ^ moduloT[f >> shift] */
  method Append(poly: Word, shift: nat, modulo: array<Word>, f: Word, b: Byte, ghost a: Poly) returns (g: Word)
    requires 63 in poly && shift == 55 && modulo.Length == 256
    requires ModuloTable(poly, modulo[..], 256)
    requires f == Rem(a, poly, 63)
    ensures g == Rem(Add(Shift(a, 8), BitsOf(b)), poly, 63)
  {
    ByteBits(b);
    RemUnique(a, f, poly, 63);
    NumberBound(Shr(f, shift), 8);
    PowByte();
    var top := Number(Shr(f, shift));
    AppendByte(poly, a, f, BitsOf(b), top, modulo[top]);
    g := Xor(Or(Shl(f, 8), BitsOf(b)), modulo[top]);
  }

  lemma PowByte()
    ensures Pow2(8) == 256
  {
    assert Pow2(8) == 2 * Pow2(7) == 4 * Pow2(6) == 8 * Pow2(5) == 16 * Pow2(4) == 32 * Pow2(3);
    assert Pow2(3) == 2 * Pow2(2) == 4 * Pow2(1) == 8;
  }

  /** i * x^e reduced, from t = x^e reduced. */
  method TimesReduced(poly: Word, i: nat, ghost e: nat, t: Word) returns (g: Word)
    requires HasDegree(poly, 63) && i < 256 && IsRemainder({e}, t, poly, 63)
    ensures g == Rem(Shift(BitsOf(i), e), poly, 63) && Below(g, 63)
  {
    ByteBits(i);
    var h, l := MultiplyPoly(BitsOf(i), t);
    g := GetFingerprint(h, l, poly);
    TableProduct(poly, i, e, t, Poly128(h, l), g);
  }

  method FillModulo(poly: Word, k: nat, modulo: array<Word>)
    requires k == 63 && HasDegree(poly, k) && modulo.Length == 256
    modifies modulo
    ensures ModuloTable(poly, modulo[..], 256)
  {
    var t := GetFingerprint(ZERO, Shl(ONE, 63), poly);
    assert Poly128(ZERO, Shl(ONE, 63)) == {63};
    for i := 0 to 256
      invariant ModuloTable(poly, modulo[..], i)
    {
      var g := TimesReduced(poly, i, 63, t);
      ByteBits(i);
      TagTop(g, i);
      modulo[i] := Or(g, Shl(BitsOf(i), k));
    }
  }

  lemma OneReduced(poly: Word)
    requires HasDegree(poly, 63)
    ensures ONE == Rem({0}, poly, 63)
  {
    CongruentRefl({0}, poly);
    RemUnique({0}, ONE, poly, 63);
  }

  /** x^(8 * (size - 1)) reduced, by appending zero bytes. */
  method WindowShift(poly: Word, k: nat, size: nat, modulo: array<Word>) returns (sizeshift: Word)
    requires k == 63 && HasDegree(poly, k) && modulo.Length == 256 && 1 <= size
    requires ModuloTable(poly, modulo[..], 256)
    ensures IsRemainder({8 * (size - 1)}, sizeshift, poly, 63)
  {
    hide Rem, ModuloTable, IsRemainder;
    sizeshift := ONE;
    OneReduced(poly);
    for i := 1 to size
      invariant sizeshift == Rem({8 * (i - 1)}, poly, 63)
    {
      ghost var a := {8 * (i - 1)};
      sizeshift := Append(poly, k - 8, modulo, sizeshift, 0, a);
      assert BitsOf(0) == {};
      assert Add(Shift(a, 8), {}) == {8 * i};
    }
    RemUnique({8 * (size - 1)}, sizeshift, poly, 63);
  }

  method FillRegion(poly: Word, k: nat, size: nat, modulo: array<Word>, region: array<Word>)
    requires k == 63 && HasDegree(poly, k) && modulo.Length == 256 && region.Length == 256
    requires modulo != region && 1 <= size <= 256
    requires ModuloTable(poly, modulo[..], 256)
    modifies region
    ensures RegionTable(poly, size, region[..], 256)
  {
    var sizeshift := WindowShift(poly, k, size, modulo);
    for i := 0 to 256
      invariant RegionTable(poly, size, region[..], i)
    {
      region[i] := TimesReduced(poly, i, 8 * (size - 1), sizeshift);
    }
  }

  /** The modulus of the program has degree 63. */
  lemma DefaultModulus()
    ensures HasDegree(BitsOf(IRREDUCIBLE_POLY), 63)
  {
    hide BitsOf, Pow2, HasDegree;
    assert Pow2(16) == 0x1_0000 by {
      PowByte();
      Pow2Add(8, 8);
    }
    assert Pow2(32) == 0x1_0000_0000 by {
      Pow2Add(16, 16);
    }
    assert Pow2(64) == 0x1_0000_0000_0000_0000 by {
      Pow2Add(32, 32);
    }
    Pow2Double(63);
    BitsOfTop(IRREDUCIBLE_POLY, 63);
  }

  lemma Pow2Double(k: nat)
    ensures Pow2(k + 1) == 2 * Pow2(k)
  {
  }

  lemma {:induction false} Pow2Add(a: nat, b: nat)
    ensures Pow2(a + b) == Pow2(a) * Pow2(b)
  {
    if a > 0 {
      Pow2Add(a - 1, b);
    }
  }
}
