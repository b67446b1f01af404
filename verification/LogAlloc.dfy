/**
 The striped circular log of the HashCache block store (HashCache/src/hcfs.c): block numbers are dealt
 out disk by disk, and a version number counts the laps.
 */
module LogAlloc {
  import opened Arith

  const THRESHOLD: nat := 1000

  /** Number of disks, the first block of the log, its end, and the blocks per disk in one cycle. */
  datatype Geometry = Geometry(disks: nat, first: nat, end: nat, cycle: nat, blockSize: nat) {
    predicate Valid() { disks > 0 && first % disks == 0 && end % disks == 0 && first <= end && blockSize > 0 }

    /** An allocation of n blocks fits into one lap. */
    predicate Fits(n: nat) { first + disks * n <= end }
  }

  /** One allocation: n blocks on one disk, every disks-th number from start on. */
  datatype Alloc = Alloc(version: int, disk: nat, start: nat, n: nat) {
    /** The number of its block i. */
    function Block(g: Geometry, i: nat): nat { start + g.disks * i }

    /** The first number on its disk behind it. */
    function Next(g: Geometry): nat { start + g.disks * n }
  }

  function WhichRem(g: Geometry, block: nat): nat
    requires g.Valid()
  {
    if g.disks == 1 then 0 else block % g.disks
  }

  /** Byte offset on the disk (convertRelToAbsRead and convertRelToAbsWrite). */
  function ByteOffset(g: Geometry, block: nat): int
    requires g.Valid()
  {
    (block - WhichRem(g, block)) / g.disks * g.blockSize
  }

  // ---------------------------------------------------------------- arithmetic

  lemma {:induction false} ModShift(x: nat, d: nat, i: nat)
    requires d > 0
    ensures (x + d * i) % d == x % d
    decreases i
  {
    if i > 0 {
      ModShift(x, d, i - 1);
      var y := x + d * (i - 1);
      assert x + d * i == y + d;
      ModNext(y, d);
    }
  }

  lemma ModNext(y: nat, d: nat)
    requires d > 0
    ensures (y + d) % d == y % d
  {
    var q := y / d;
    assert y + d == d * (q + 1) + y % d;
    Quotient(y + d, d, q + 1, y % d);
  }

  lemma Quotient(x: nat, d: nat, q: nat, r: nat)
    requires d > 0 && x == d * q + r && r < d
    ensures x / d == q && x % d == r
  {
    var p := x / d;
    assert x == d * p + x % d;
    if p < q {
      MulLess(d, p, q);
    } else if q < p {
      MulLess(d, q, p);
    }
  }

  lemma ModPlace(f: nat, d: nat, i: nat)
    requires i < d && f % d == 0
    ensures (f + i) % d == i
  {
    Quotient(f + i, d, f / d, i);
  }

  // ---------------------------------------------------------------- places on disk

  lemma WhichIsMod(g: Geometry, b: nat)
    requires g.Valid()
    ensures WhichRem(g, b) == b % g.disks
  {
  }

  /** Different block numbers have different places. */
  lemma PlacesDistinct(g: Geometry, b: nat, c: nat)
    requires g.Valid() && WhichRem(g, b) == WhichRem(g, c) && ByteOffset(g, b) == ByteOffset(g, c)
    ensures b == c
  {
    hide ByteOffset, WhichRem;
    OffsetIs(g, b);
    OffsetIs(g, c);
    var d := g.disks;
    SameFactor(b / d, c / d, g.blockSize);
    assert b == d * (b / d) + b % d && c == d * (c / d) + c % d;
  }

  lemma OffsetIs(g: Geometry, b: nat)
    requires g.Valid()
    ensures ByteOffset(g, b) == b / g.disks * g.blockSize && WhichRem(g, b) == b % g.disks
  {
    var d := g.disks;
    WhichIsMod(g, b);
    assert b - b % d == d * (b / d);
    Quotient(b - b % d, d, b / d, 0);
  }

  lemma SameFactor(a: nat, b: nat, f: nat)
    requires f > 0 && a * f == b * f
    ensures a == b
  {
    assert a * f == f * a && b * f == f * b;
    if a < b {
      MulLess(f, a, b);
    } else if b < a {
      MulLess(f, b, a);
    }
  }

  // ---------------------------------------------------------------- what a run keeps

  /** The allocation lies on its disk, and ends inside the log exactly when it fits into one lap. */
  ghost predicate Placed(g: Geometry, a: Alloc)
    requires g.Valid()
  {
    && a.disk < g.disks && a.start % g.disks == a.disk && g.first <= a.start
    && (a.n > 0 ==> (a.Block(g, a.n - 1) < g.end <==> g.Fits(a.n)))
  }

  /** Two allocations, the earlier one first. */
  ghost predicate Ordered(g: Geometry, a: Alloc, b: Alloc) {
    a.version <= b.version && (a.version == b.version && a.disk == b.disk ==> a.Next(g) <= b.start)
  }

  ghost predicate Inv(g: Geometry, h: seq<Alloc>, offsets: seq<nat>, version: int)
    requires g.Valid()
  {
    && OnDisks(g, offsets) && AllOrdered(g, h) && Swept(g, h, offsets, version)
    && forall x :: 0 <= x < |h| ==> Behind(g, h[x], offsets, version)
  }

  /** The next block of every disk is on that disk. */
  ghost predicate OnDisks(g: Geometry, offsets: seq<nat>)
    requires g.Valid()
  {
    |offsets| == g.disks && forall k :: 0 <= k < g.disks ==> g.first + k <= offsets[k] && offsets[k] % g.disks == k
  }

  /** An allocation is behind the offset of its disk, or of an earlier version. */
  ghost predicate Behind(g: Geometry, a: Alloc, offsets: seq<nat>, version: int)
    requires g.Valid()
  {
    && Placed(g, a) && a.version <= version
    && (a.version == version ==> a.disk < |offsets| && a.Next(g) <= offsets[a.disk])
  }

  ghost predicate AllOrdered(g: Geometry, h: seq<Alloc>) {
    forall x, y :: 0 <= x < y < |h| ==> Ordered(g, h[x], h[y])
  }

  /** Block m of disk k. */
  function DiskBlock(g: Geometry, k: nat, m: nat): nat {
    g.first + k + g.disks * m
  }

  /** The block number has been handed out in this version. */
  ghost predicate HandedOut(g: Geometry, h: seq<Alloc>, version: int, b: nat) {
    exists y, j: nat :: 0 <= y < |h| && h[y].version == version && j < h[y].n && h[y].Block(g, j) == b
  }

  /** On every disk the present lap has handed out everything behind the present offset. */
  ghost predicate Swept(g: Geometry, h: seq<Alloc>, offsets: seq<nat>, version: int) {
    forall k, m: nat :: 0 <= k < g.disks && k < |offsets| && DiskBlock(g, k, m) < offsets[k] ==>
      HandedOut(g, h, version, DiskBlock(g, k, m))
  }

  lemma SweptAlloc(g: Geometry, h: seq<Alloc>, offsets: seq<nat>, version: int, k: nat, n: nat)
    requires g.Valid() && Swept(g, h, offsets, version) && k < g.disks == |offsets|
    requires g.first + k <= offsets[k] && offsets[k] % g.disks == k
    ensures var a := Alloc(version, k, offsets[k], n); Swept(g, h + [a], offsets[k := a.Next(g)], version)
  {
    hide HandedOut;
    var a := Alloc(version, k, offsets[k], n);
    forall q, m: nat | 0 <= q < g.disks && DiskBlock(g, q, m) < offsets[k := a.Next(g)][q]
      ensures HandedOut(g, h + [a], version, DiskBlock(g, q, m))
    {
      var b := DiskBlock(g, q, m);
      if b < offsets[q] {
        HandedOutKept(g, h, a, version, b);
      } else {
        SweptNew(g, h, a, version, m);
      }
    }
  }

  lemma HandedOutKept(g: Geometry, h: seq<Alloc>, a: Alloc, version: int, b: nat)
    requires HandedOut(g, h, version, b)
    ensures HandedOut(g, h + [a], version, b)
  {
    var y, j: nat :| 0 <= y < |h| && h[y].version == version && j < h[y].n && h[y].Block(g, j) == b;
    assert (h + [a])[y] == h[y];
  }

  lemma SweptNew(g: Geometry, h: seq<Alloc>, a: Alloc, version: int, m: nat)
    requires g.Valid() && a.version == version && a.disk < g.disks && g.first + a.disk <= a.start
    requires a.start % g.disks == a.disk
    requires a.start <= DiskBlock(g, a.disk, m) < a.Next(g)
    ensures HandedOut(g, h + [a], version, DiskBlock(g, a.disk, m))
  {
    var p, q := Quotients(g, a);
    assert g.disks * q + g.disks * m == g.disks * (q + m);
    var j := FactorIndex(g.disks, p, q + m, a.n);
    assert (h + [a])[|h|] == a && a.Block(g, j) == DiskBlock(g, a.disk, m);
  }

  lemma FactorIndex(d: nat, p: nat, r: nat, n: nat) returns (j: nat)
    requires d * p <= d * r < d * p + d * n
    ensures r == p + j && j < n && d * r == d * p + d * j
  {
    if r < p {
      MulLess(d, r, p);
    }
    j := r - p;
    assert d * r == d * p + d * j;
    if j >= n {
      MulAtLeast(d, n, j);
    }
  }

  lemma MulAtLeast(d: nat, a: nat, b: nat)
    requires a <= b
    ensures d * a <= d * b
  {
    if a < b {
      MulLess(d, a, b);
    }
  }

  /** The start of a lap. */
  function LapStart(g: Geometry): seq<nat> {
    seq(g.disks, i requires i >= 0 => g.first + i)
  }

  lemma LapSwept(g: Geometry, h: seq<Alloc>, version: int)
    ensures Swept(g, h, LapStart(g), version)
  {
  }

  lemma LapPlaces(g: Geometry, i: nat)
    requires g.Valid() && i < g.disks
    ensures (g.first + i) % g.disks == i
  {
    ModPlace(g.first, g.disks, i);
  }

  /** A new lap keeps the invariant. */
  lemma LapInv(g: Geometry, h: seq<Alloc>, offsets: seq<nat>, version: int)
    requires g.Valid() && Inv(g, h, offsets, version)
    ensures Inv(g, h, LapStart(g), version + 1)
  {
    hide Swept;
    LapSwept(g, h, version + 1);
    forall k | 0 <= k < g.disks ensures LapStart(g)[k] % g.disks == k {
      LapPlaces(g, k);
    }
  }

  /** The next allocation on disk k. */
  lemma AllocPlaced(g: Geometry, offsets: seq<nat>, version: int, k: nat, n: nat)
    requires g.Valid() && k < g.disks == |offsets| && g.first + k <= offsets[k] && offsets[k] % g.disks == k
    requires offsets[k] + g.disks * n <= g.end || offsets[k] == g.first + k
    ensures Placed(g, Alloc(version, k, offsets[k], n)) && (offsets[k] + g.disks * n) % g.disks == k
  {
    ModShift(offsets[k], g.disks, n);
    if n > 0 {
      LastInside(g, k, offsets[k], n);
    }
  }

  /** The last block of a request is inside the log exactly when the request fits into one lap. */
  lemma LastInside(g: Geometry, k: nat, start: nat, n: nat)
    requires g.Valid() && k < g.disks && g.first + k <= start && n > 0
    requires start + g.disks * n <= g.end || start == g.first + k
    ensures start + g.disks * (n - 1) < g.end <==> g.Fits(n)
  {
    var d := g.disks;
    assert d * n == d * (n - 1) + d;
    if !g.Fits(n) {
      NextMultiple(d, g.first, g.end, n);
    }
  }

  /** Multiples of d that differ, differ by d. */
  lemma NextMultiple(d: nat, first: nat, end: nat, n: nat)
    requires d > 0 && first % d == 0 && end % d == 0 && first + d * n > end
    ensures first + d * n >= end + d
  {
    var q, e := first / d, end / d;
    assert first == d * q && end == d * e && d * q + d * n == d * (q + n);
    if q + n <= e {
      MulAtLeast(d, q + n, e);
    } else {
      MulLess(d, e, q + n);
    }
  }

  lemma AllocInv(g: Geometry, h: seq<Alloc>, offsets: seq<nat>, version: int, k: nat, n: nat)
    requires g.Valid() && Inv(g, h, offsets, version) && k < g.disks
    requires offsets[k] + g.disks * n <= g.end || offsets[k] == g.first + k
    ensures var a := Alloc(version, k, offsets[k], n); Inv(g, h + [a], offsets[k := a.Next(g)], version)
  {
    hide Placed, Swept, Behind, Ordered, OnDisks;
    OnDisk(g, offsets, k);
    AllocPlaced(g, offsets, version, k, n);
    SweptAlloc(g, h, offsets, version, k, n);
    var a := Alloc(version, k, offsets[k], n);
    AllocOnDisks(g, offsets, k, a.Next(g));
    forall x | 0 <= x < |h| ensures Behind(g, h[x], offsets[k := a.Next(g)], version) && Ordered(g, h[x], a) {
      BehindKept(g, h[x], a, offsets, version);
    }
    BehindNew(g, a, offsets, version);
    forall x | 0 <= x < |h + [a]| ensures Behind(g, (h + [a])[x], offsets[k := a.Next(g)], version) {
    }
  }

  lemma OnDisk(g: Geometry, offsets: seq<nat>, k: nat)
    requires g.Valid() && OnDisks(g, offsets) && k < g.disks
    ensures |offsets| == g.disks && g.first + k <= offsets[k] && offsets[k] % g.disks == k
  {
  }

  lemma AllocOnDisks(g: Geometry, offsets: seq<nat>, k: nat, next: nat)
    requires g.Valid() && OnDisks(g, offsets) && k < g.disks && offsets[k] <= next && next % g.disks == k
    ensures OnDisks(g, offsets[k := next])
  {
  }

  /** An earlier allocation is still behind, and comes before the new one. */
  lemma BehindKept(g: Geometry, b: Alloc, a: Alloc, offsets: seq<nat>, version: int)
    requires g.Valid() && Behind(g, b, offsets, version) && a.version == version && a.disk < |offsets|
    requires a.start == offsets[a.disk]
    ensures Behind(g, b, offsets[a.disk := a.Next(g)], version) && Ordered(g, b, a)
  {
    hide Placed;
  }

  lemma BehindNew(g: Geometry, a: Alloc, offsets: seq<nat>, version: int)
    requires g.Valid() && Placed(g, a) && a.version == version && a.disk < |offsets|
    ensures Behind(g, a, offsets[a.disk := a.Next(g)], version)
  {
    hide Placed;
  }

  // ---------------------------------------------------------------- what follows

  /** Every block is on the returned disk, and inside the log when the request fits into one lap. */
  lemma BlockInside(g: Geometry, a: Alloc, i: nat)
    requires g.Valid() && Placed(g, a) && i < a.n
    ensures WhichRem(g, a.Block(g, i)) == a.disk && g.first <= a.Block(g, i)
    ensures g.Fits(a.n) ==> a.Block(g, i) < g.end
  {
    hide WhichRem;
    ModShift(a.start, g.disks, i);
    WhichIsMod(g, a.Block(g, i));
    MulAtLeast(g.disks, i, a.n - 1);
    MulAtLeast(g.disks, 0, i);
  }

  /** Blocks of different allocations that are on the same disk and in order differ. */
  lemma BlocksApart(g: Geometry, a: Alloc, b: Alloc, i: nat, j: nat)
    requires g.Valid() && Placed(g, a) && Placed(g, b) && i < a.n && (a.disk == b.disk ==> a.Next(g) <= b.start)
    ensures a.Block(g, i) != b.Block(g, j)
  {
    if a.disk == b.disk {
      MulLess(g.disks, i, a.n);
      MulAtLeast(g.disks, 0, j);
    } else {
      OtherDisk(g, a, b, i, j);
    }
  }

  /** No block number is handed out twice within a version. */
  lemma NoBlockTwice(g: Geometry, h: seq<Alloc>, offsets: seq<nat>, version: int, x: nat, y: nat, i: nat, j: nat)
    requires g.Valid() && Inv(g, h, offsets, version) && x < |h| && y < |h| && i < h[x].n && j < h[y].n
    requires h[x].version == h[y].version && (x != y || i != j)
    ensures h[x].Block(g, i) != h[y].Block(g, j)
  {
    hide Placed;
    assert Placed(g, h[x]) && Placed(g, h[y]);
    if x < y {
      assert Ordered(g, h[x], h[y]);
      BlocksApart(g, h[x], h[y], i, j);
    } else if y < x {
      assert Ordered(g, h[y], h[x]);
      BlocksApart(g, h[y], h[x], j, i);
    } else if i < j {
      MulLess(g.disks, i, j);
    } else {
      MulLess(g.disks, j, i);
    }
  }

  predicate Accepts(g: Geometry, offsets: seq<nat>, present: int, version: int, offset: int)
    requires |offsets| > 0
  {
    version == present || (version == present - 1 && offset > offsets[0] + THRESHOLD)
  }

  /** No later allocation shares a block with allocation x from its block i on. */
  ghost predicate Intact(g: Geometry, h: seq<Alloc>, x: nat, i: nat)
    requires x < |h|
  {
    forall y, k, j :: x < y < |h| && i <= k < h[x].n && 0 <= j < h[y].n ==> h[x].Block(g, k) != h[y].Block(g, j)
  }

  lemma Repeated(g: Geometry, h: seq<Alloc>, x: nat, i: nat, y: nat, j: nat)
    requires x < y < |h| && i < h[x].n && j < h[y].n && h[x].Block(g, i) == h[y].Block(g, j)
    ensures !Intact(g, h, x, i)
  {
  }

  /** An entry of this version starts at this offset, block i of allocation x on disk k. */
  ghost predicate IsEntry(g: Geometry, h: seq<Alloc>, x: nat, i: nat, k: nat, version: int, offset: int) {
    x < |h| && i < h[x].n && h[x].disk == k && h[x].version == version && offset == h[x].Block(g, i)
  }

  /** An entry of the present lap is intact. */
  lemma PresentIntact(g: Geometry, h: seq<Alloc>, offsets: seq<nat>, version: int, x: nat, i: nat)
    requires g.Valid() && Inv(g, h, offsets, version) && x < |h| && h[x].version == version
    ensures Intact(g, h, x, i)
  {
    hide Placed, Swept;
    forall y, k, j | x < y < |h| && i <= k < h[x].n && 0 <= j < h[y].n ensures h[x].Block(g, k) != h[y].Block(g, j) {
      assert Ordered(g, h[x], h[y]) && h[y].version <= version;
      NoBlockTwice(g, h, offsets, version, x, y, k, j);
    }
  }

  /**
   When acceptance is right, for every disk: an accepted entry has not been overwritten if and only if
   it is of the present lap or its own disk has not reached it again.
   */
  lemma AcceptedExactly(g: Geometry, h: seq<Alloc>, offsets: seq<nat>, present: int, x: nat, i: nat, k: nat,
                        version: int, offset: nat)
    requires g.Valid() && Inv(g, h, offsets, present) && IsEntry(g, h, x, i, k, version, offset)
    requires |offsets| > 0 && Accepts(g, offsets, present, version, offset)
    ensures k == WhichRem(g, offset) < |offsets|
    ensures Intact(g, h, x, i) <==> version == present || offset >= offsets[WhichRem(g, offset)]
  {
    hide Placed, Swept, Intact, WhichRem, Ordered;
    assert Placed(g, h[x]);
    PlacedDisk(g, h[x]);
    BlockInside(g, h[x], i);
    if version == present {
      PresentIntact(g, h, offsets, present, x, i);
    } else {
      IntactBehind(g, h, offsets, present, x, i);
    }
  }

  /** An entry of the lap before, on any disk, is intact exactly when the disk has not reached it again. */
  lemma IntactBehind(g: Geometry, h: seq<Alloc>, offsets: seq<nat>, version: int, x: nat, i: nat)
    requires g.Valid() && Inv(g, h, offsets, version) && x < |h| && i < h[x].n && h[x].version == version - 1
    ensures h[x].disk < |offsets|
    ensures Intact(g, h, x, i) <==> h[x].Block(g, i) >= offsets[h[x].disk]
  {
    hide Placed, Swept, Intact;
    assert Placed(g, h[x]);
    PlacedDisk(g, h[x]);
    if h[x].Block(g, i) >= offsets[h[x].disk] {
      BehindIntact(g, h, offsets, version, x, i);
    } else {
      ReachedOverwritten(g, h, offsets, version, x, i);
    }
  }

  lemma PlacedDisk(g: Geometry, a: Alloc)
    requires g.Valid() && Placed(g, a)
    ensures a.disk < g.disks
  {
  }

  lemma BehindIntact(g: Geometry, h: seq<Alloc>, offsets: seq<nat>, version: int, x: nat, i: nat)
    requires g.Valid() && Inv(g, h, offsets, version) && x < |h| && i < h[x].n && h[x].version == version - 1
    requires h[x].disk < |offsets| && h[x].Block(g, i) >= offsets[h[x].disk]
    ensures Intact(g, h, x, i)
  {
    hide Placed, Swept;
    forall y, k, j | x < y < |h| && i <= k < h[x].n && 0 <= j < h[y].n ensures h[x].Block(g, k) != h[y].Block(g, j) {
      assert Placed(g, h[x]) && Placed(g, h[y]) && Ordered(g, h[x], h[y]);
      MulAtLeast(g.disks, i, k);
      if h[x].version == h[y].version {
        BlocksApart(g, h[x], h[y], k, j);
      } else if h[y].disk == h[x].disk {
        MulLess(g.disks, j, h[y].n);
      } else {
        OtherDisk(g, h[x], h[y], k, j);
      }
    }
  }

  lemma ReachedOverwritten(g: Geometry, h: seq<Alloc>, offsets: seq<nat>, version: int, x: nat, i: nat)
    requires g.Valid() && Inv(g, h, offsets, version) && x < |h| && i < h[x].n && h[x].version == version - 1
    requires h[x].disk < |offsets| && h[x].Block(g, i) < offsets[h[x].disk]
    ensures !Intact(g, h, x, i)
  {
    var b := h[x].Block(g, i);
    var m := BlockOnDisk(g, h[x], i);
    assert HandedOut(g, h, version, b);
    var y, j: nat :| 0 <= y < |h| && h[y].version == version && j < h[y].n && h[y].Block(g, j) == b;
    assert y < x ==> Ordered(g, h[y], h[x]);
    assert x < y && h[x].Block(g, i) == h[y].Block(g, j);
  }

  lemma BlockOnDisk(g: Geometry, a: Alloc, i: nat) returns (m: nat)
    requires g.Valid() && Placed(g, a)
    ensures a.Block(g, i) == DiskBlock(g, a.disk, m)
  {
    var p, q := Quotients(g, a);
    m := p - q + i;
    Distribute(g.disks, p, q, i);
  }

  /** The start of an allocation and the start of the log in multiples of the number of disks. */
  lemma Quotients(g: Geometry, a: Alloc) returns (p: nat, q: nat)
    requires g.Valid() && a.disk < g.disks && a.start % g.disks == a.disk && g.first <= a.start
    ensures q <= p && a.start == g.disks * p + a.disk && g.first == g.disks * q
  {
    p, q := a.start / g.disks, g.first / g.disks;
    if p < q {
      MulLess(g.disks, p, q);
    }
  }

  lemma Distribute(d: nat, p: nat, q: nat, i: nat)
    ensures d * (p - q + i) == d * p - d * q + d * i
  {
  }

  lemma OtherDisk(g: Geometry, a: Alloc, b: Alloc, i: nat, j: nat)
    requires g.Valid() && Placed(g, a) && Placed(g, b) && a.disk != b.disk
    ensures a.Block(g, i) != b.Block(g, j)
  {
    ModShift(a.start, g.disks, i);
    ModShift(b.start, g.disks, j);
  }

  // ---------------------------------------------------------------- the program

  class LogFile {
    const g: Geometry
    var presentRemOffsets: seq<nat>
    var presentRemVersion: int
    var presentDisk: nat
    var allocStart: nat
    /** Everything handed out so far. */
    ghost var history: seq<Alloc>

    ghost predicate Valid()
      reads this
    {
      g.Valid() && presentDisk < g.disks && Inv(g, history, presentRemOffsets, presentRemVersion)
    }

    constructor (g: Geometry)
      requires g.Valid()
      ensures Valid() && this.g == g && history == [] && presentRemVersion == 0
      ensures presentRemOffsets == LapStart(g) && presentDisk == 0 && allocStart == 0
    {
      this.g := g;
      presentRemVersion, presentDisk, allocStart, history := 0, 0, 0, [];
      presentRemOffsets := LapStart(g);
      StartInv(g);
    }

    /** Move to the next disk unless the present cycle is untouched. */
    method BeginAllocCycle()
      requires Valid()
      modifies this`allocStart, this`presentDisk
      ensures Valid() && allocStart == 0
      ensures presentDisk == if old(allocStart) == 0 then old(presentDisk)
                             else if old(presentDisk) + 1 < g.disks then old(presentDisk) + 1
                             else 0
    {
      if allocStart == 0 {
        return;
      }
      allocStart := 0;
      presentDisk := presentDisk + 1;
      if presentDisk >= g.disks {
        presentDisk := 0;
      }
    }

    /** Hand out n blocks of the present disk, starting a new lap when they do not fit. */
    method GetFromOneDisk(numBlocks: nat) returns (start: nat, version: int, diskNum: nat, leftInCycle: nat)
      requires Valid()
      modifies this
      ensures Valid() && diskNum == old(presentDisk)
      ensures history == old(history) + [Alloc(version, diskNum, start, numBlocks)]
      ensures version == presentRemVersion
              && version == old(presentRemVersion)
                            + if old(presentRemOffsets)[diskNum] + g.disks * numBlocks > g.end then 1 else 0
      ensures start == if version == old(presentRemVersion) then old(presentRemOffsets)[diskNum] else g.first + diskNum
      ensures var offsets := if version == old(presentRemVersion) then old(presentRemOffsets) else LapStart(g);
              presentRemOffsets == offsets[diskNum := start + g.disks * numBlocks]
      ensures var used := old(allocStart) + numBlocks;
              && allocStart == (if used >= g.cycle then 0 else used)
              && presentDisk == (if used < g.cycle then diskNum else if diskNum + 1 < g.disks then diskNum + 1 else 0)
      ensures numBlocks > 0 ==> (start + g.disks * (numBlocks - 1) < g.end <==> g.Fits(numBlocks))
      ensures leftInCycle ==
                if old(allocStart) + numBlocks < g.cycle then g.cycle - (old(allocStart) + numBlocks) else 0
    {
      hide Inv;
      InvOffsets(g, history, presentRemOffsets, presentRemVersion);
      LapLength(g);
      diskNum := presentDisk;
      if presentRemOffsets[presentDisk] + numBlocks * g.disks > g.end {
        LapInv(g, history, presentRemOffsets, presentRemVersion);
        presentRemVersion := presentRemVersion + 1;
        presentRemOffsets := LapStart(g);
      }
      allocStart := allocStart + numBlocks;
      version := presentRemVersion;
      start := presentRemOffsets[presentDisk];
      AllocInv(g, history, presentRemOffsets, presentRemVersion, presentDisk, numBlocks);
      if numBlocks > 0 {
        LastInside(g, presentDisk, start, numBlocks);
      }
      assert numBlocks * g.disks == g.disks * numBlocks;
      presentRemOffsets := presentRemOffsets[presentDisk := presentRemOffsets[presentDisk] + numBlocks * g.disks];
      history := history + [Alloc(version, diskNum, start, numBlocks)];
      leftInCycle := if allocStart < g.cycle then g.cycle - allocStart else 0;
      if allocStart >= g.cycle {
        presentDisk := presentDisk + 1;
        allocStart := 0;
      }
      if presentDisk >= g.disks {
        presentDisk := 0;
      }
    }

    /**
     Whether an entry may still be used.  Acceptance is right exactly for entries of the present lap and
     for those that their own disk has not reached again; for disk 0 it always is.
     */
    method CheckVersion(version: int, offset: int) returns (ok: bool)
      requires Valid()
      ensures ok == Accepts(g, presentRemOffsets, presentRemVersion, version, offset)
      ensures ok ==> forall x: nat, i: nat, k: nat :: IsEntry(g, history, x, i, k, version, offset) ==>
                && k < |presentRemOffsets|
                && (Intact(g, history, x, i) <==> version == presentRemVersion || offset >= presentRemOffsets[k])
      ensures ok ==> forall x, i :: IsEntry(g, history, x, i, 0, version, offset) ==> Intact(g, history, x, i)
    {
      hide Inv, Intact, WhichRem;
      InvOffsets(g, history, presentRemOffsets, presentRemVersion);
      ok := || version == presentRemVersion
            || (version == presentRemVersion - 1 && offset > presentRemOffsets[0] + THRESHOLD);
      if ok {
        forall x: nat, i: nat, k: nat | IsEntry(g, history, x, i, k, version, offset)
          ensures k < |presentRemOffsets|
          ensures Intact(g, history, x, i) <==> version == presentRemVersion || offset >= presentRemOffsets[k]
        {
          AcceptedExactly(g, history, presentRemOffsets, presentRemVersion, x, i, k, version, offset);
        }
      }
    }
  }

  lemma StartInv(g: Geometry)
    requires g.Valid()
    ensures Inv(g, [], LapStart(g), 0)
  {
    forall k | 0 <= k < g.disks ensures LapStart(g)[k] == g.first + k && LapStart(g)[k] % g.disks == k {
      LapPlaces(g, k);
    }
  }

  lemma InvOffsets(g: Geometry, h: seq<Alloc>, offsets: seq<nat>, version: int)
    requires g.Valid() && Inv(g, h, offsets, version)
    ensures |offsets| == g.disks > 0 && forall k :: 0 <= k < g.disks ==> g.first + k <= offsets[k]
  {
  }

  lemma LapLength(g: Geometry)
    ensures |LapStart(g)| == g.disks && forall k :: 0 <= k < g.disks ==> LapStart(g)[k] == g.first + k
  {
  }

  /**
   With more than one disk the check, which looks at disk 0 only, can accept an entry that has been
   overwritten.
   */
  method AcceptedThoughOverwritten() returns (f: LogFile, ok: bool)
    ensures f.Valid() && ok && IsEntry(f.g, f.history, 1, 1000, 1, 0, 2001) && !Intact(f.g, f.history, 1, 1000)
  {
    hide Inv, Intact;
    var g := Geometry(2, 0, 6000, 16, 4096);
    f := new LogFile(g);
    var s1, v1, d1, l1 := f.GetFromOneDisk(2999);
    var s2, v2, d2, l2 := f.GetFromOneDisk(2999);
    var s3, v3, d3, l3 := f.GetFromOneDisk(16);
    var s4, v4, d4, l4 := f.GetFromOneDisk(2999);
    ok := f.CheckVersion(0, 2001);
    assert f.history[1].Block(g, 1000) == 2001 && f.history[3].Block(g, 1000) == 2001;
    Repeated(g, f.history, 1, 1000, 3, 1000);
  }
}
