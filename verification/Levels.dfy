/** Chunk names and the geometry of the multi-resolution chunk tree (waprox/mrc_tree.h). */
module ChunkNames {
  import opened Bytes

  const SHA1_LEN: nat := 20
  const WAPROX_MIN_CHUNK_SIZE := 30

  type Sha1 = s: seq<Byte> | |s| == 20 witness [0, 0, 0, 0, 0, 0, 0, 0, 0, 0, 0, 0, 0, 0, 0, 0, 0, 0, 0, 0]

  const NO_NAME: Sha1 := [0, 0, 0, 0, 0, 0, 0, 0, 0, 0, 0, 0, 0, 0, 0, 0, 0, 0, 0, 0]

  datatype OneChunkName = OneChunkName(
    length: nat, offset: nat, index: nat, level: nat, parentIdx: int, pChunk: nat,
    sha1name: Sha1, isSha1Ready: bool, isHit: bool, isCandidate: bool)
  {
    function End(): nat { offset + length }
  }

  datatype PerLevelInfo = PerLevelInfo(numNames: nat, firstIndex: nat) {
    function Next(): nat { firstIndex + numNames }

    predicate Has(i: int) { firstIndex <= i < Next() }
  }

  /** InitOneChunk followed by the fields DoPreMRC fills. */
  function NewName(index: nat, level: nat, offset: nat, length: nat): OneChunkName {
    OneChunkName(length, offset, index, level, -1, offset, NO_NAME, false, false, false)
  }
}

/**
 The levels of the chunk tree (DoPreMRC, waprox/mrc_tree.c): every level selects, from the
 same list of boundary offsets, the boundaries that hit its mask, skipping those that would make
 a small chunk unless an upper level already cut there.
 */
module Levels {
  import opened ChunkNames

  /** Boundary i is taken as a cut when the previous cut is at offset last. */
  predicate Picks(offs: seq<nat>, hit: seq<bool>, marked: seq<bool>, i: nat, last: nat)
    requires i < |offs| == |hit| == |marked|
  {
    (hit[i] || i + 1 == |offs|) && (offs[i] > last + WAPROX_MIN_CHUNK_SIZE || marked[i])
  }

  function Minus(a: nat, b: nat): nat {
    if a >= b then a - b else 0
  }

  /** The names of one level that boundaries i and later give rise to. */
  ghost function LevelFrom(offs: seq<nat>, hit: seq<bool>, marked: seq<bool>, level: nat, index: nat, i: nat, last: nat)
    : seq<OneChunkName>
    requires |offs| == |hit| == |marked|
    decreases |offs| - i
  {
    if i >= |offs| then []
    else if Picks(offs, hit, marked, i, last) then
      [NewName(index, level, last, Minus(offs[i], last))]
      + LevelFrom(offs, hit, marked, level, index + 1, i + 1, offs[i])
    else LevelFrom(offs, hit, marked, level, index, i + 1, last)
  }

  /** The boundary marks after the level. */
  ghost function MarksFrom(offs: seq<nat>, hit: seq<bool>, marked: seq<bool>, i: nat, last: nat): (r: seq<bool>)
    requires |offs| == |hit| == |marked|
    ensures |r| == |marked|
    decreases |offs| - i
  {
    if i >= |offs| then marked
    else if Picks(offs, hit, marked, i, last) then MarksFrom(offs, hit, marked[i := true], i + 1, offs[i])
    else MarksFrom(offs, hit, marked, i + 1, last)
  }

  // ---------------------------------------------------------------- what a level looks like

  ghost predicate Increasing(offs: seq<nat>) {
    && (forall k :: 0 <= k < |offs| ==> offs[k] > 0)
    && (forall k, l :: 0 <= k < l < |offs| ==> offs[k] < offs[l])
  }

  /** names tile the bytes from start to total, in order and with positive lengths. */
  ghost predicate Tiles(names: seq<OneChunkName>, start: nat, total: nat) {
    && names != [] && names[0].offset == start && names[|names| - 1].End() == total
    && (forall j :: 0 <= j < |names| ==> names[j].length > 0)
    && (forall i, j :: 0 <= i < j < |names| && j == i + 1 ==> names[j].offset == names[i].End())
  }

  /** Every name has its fresh fields, consecutive indices and its level. */
  ghost predicate Fresh(names: seq<OneChunkName>, level: nat, index: nat) {
    forall j :: 0 <= j < |names| ==> names[j] == NewName(index + j, level, names[j].offset, names[j].length)
  }

  ghost predicate EndsAt(names: seq<OneChunkName>, o: nat) {
    exists j :: 0 <= j < |names| && names[j].End() == o
  }

  lemma TilesCons(head: OneChunkName, rest: seq<OneChunkName>, level: nat, index: nat, total: nat)
    requires head.length > 0 && head == NewName(index, level, head.offset, head.length)
    requires Tiles(rest, head.End(), total) && Fresh(rest, level, index + 1)
    ensures Tiles([head] + rest, head.offset, total) && Fresh([head] + rest, level, index)
  {
    var names := [head] + rest;
    assert forall j :: 1 <= j < |names| ==> names[j] == rest[j - 1];
  }

  /** A name as DoPreMRC leaves it: placed, not yet named. */
  ghost predicate Blank(n: OneChunkName) {
    n.pChunk == n.offset && !n.isSha1Ready && !n.isHit && !n.isCandidate
  }

  lemma {:induction false} LevelBlank(offs: seq<nat>, hit: seq<bool>, marked: seq<bool>, level: nat, index: nat, i: nat,
                                      last: nat)
    requires |offs| == |hit| == |marked|
    ensures forall n :: n in LevelFrom(offs, hit, marked, level, index, i, last) ==> Blank(n)
    decreases |offs| - i
  {
    if i < |offs| {
      if Picks(offs, hit, marked, i, last) {
        LevelBlank(offs, hit, marked, level, index + 1, i + 1, offs[i]);
      } else {
        LevelBlank(offs, hit, marked, level, index, i + 1, last);
      }
    }
  }

  lemma {:induction false} LevelTiles(offs: seq<nat>, hit: seq<bool>, marked: seq<bool>, level: nat, index: nat, i: nat,
                                      last: nat)
    requires |offs| == |hit| == |marked| && Increasing(offs) && i < |offs| && last < offs[i]
    requires marked[|offs| - 1]
    ensures var names := LevelFrom(offs, hit, marked, level, index, i, last);
            Tiles(names, last, offs[|offs| - 1]) && Fresh(names, level, index)
    decreases |offs| - i
  {
    if i + 1 < |offs| {
      if Picks(offs, hit, marked, i, last) {
        LevelTiles(offs, hit, marked, level, index + 1, i + 1, offs[i]);
        TilesCons(NewName(index, level, last, Minus(offs[i], last)),
                  LevelFrom(offs, hit, marked, level, index + 1, i + 1, offs[i]), level, index, offs[|offs| - 1]);
      } else {
        LevelTiles(offs, hit, marked, level, index, i + 1, last);
      }
    }
  }

  /** A marked boundary that the level can see is the end of one of its names. */
  lemma {:induction false} LevelKeepsMarks(offs: seq<nat>, hit: seq<bool>, marked: seq<bool>, level: nat, index: nat,
                                           i: nat, last: nat, k: nat)
    requires |offs| == |hit| == |marked| && Increasing(offs) && i <= k < |offs| && last < offs[i]
    requires marked[k] && (hit[k] || k == |offs| - 1)
    ensures EndsAt(LevelFrom(offs, hit, marked, level, index, i, last), offs[k])
    decreases |offs| - i
  {
    var names := LevelFrom(offs, hit, marked, level, index, i, last);
    if Picks(offs, hit, marked, i, last) {
      if k == i {
        assert names[0].End() == offs[k];
      } else {
        LevelKeepsMarks(offs, hit, marked, level, index + 1, i + 1, offs[i], k);
        var rest := LevelFrom(offs, hit, marked, level, index + 1, i + 1, offs[i]);
        var j :| 0 <= j < |rest| && rest[j].End() == offs[k];
        assert names[j + 1].End() == offs[k];
      }
    } else {
      LevelKeepsMarks(offs, hit, marked, level, index, i + 1, last, k);
    }
  }

  /** Marks only grow, at boundaries the level hits and at the last one. */
  lemma {:induction false} MarksGrow(offs: seq<nat>, hit: seq<bool>, marked: seq<bool>, i: nat, last: nat, k: nat)
    requires |offs| == |hit| == |marked| && k < |offs|
    ensures var r := MarksFrom(offs, hit, marked, i, last);
            && (marked[k] ==> r[k])
            && (r[k] ==> marked[k] || hit[k] || k == |offs| - 1)
            && (k < i ==> r[k] == marked[k])
    decreases |offs| - i
  {
    if i < |offs| {
      if Picks(offs, hit, marked, i, last) {
        MarksGrow(offs, hit, marked[i := true], i + 1, offs[i], k);
      } else {
        MarksGrow(offs, hit, marked, i + 1, last, k);
      }
    }
  }

  /** A level does not look at marks behind it. */
  lemma {:induction false} LevelIgnoresPast(offs: seq<nat>, hit: seq<bool>, marked: seq<bool>, marked': seq<bool>,
                                            level: nat, index: nat, i: nat, last: nat)
    requires |offs| == |hit| == |marked| == |marked'| && (forall k :: i <= k < |offs| ==> marked[k] == marked'[k])
    ensures LevelFrom(offs, hit, marked, level, index, i, last) == LevelFrom(offs, hit, marked', level, index, i, last)
    decreases |offs| - i
  {
    if i < |offs| {
      if Picks(offs, hit, marked, i, last) {
        LevelIgnoresPast(offs, hit, marked, marked', level, index + 1, i + 1, offs[i]);
      } else {
        LevelIgnoresPast(offs, hit, marked, marked', level, index, i + 1, last);
      }
    }
  }

  /** Every end of a level is a boundary that the level leaves marked. */
  lemma {:induction false} LevelEndsMarked(offs: seq<nat>, hit: seq<bool>, marked: seq<bool>, level: nat, index: nat,
                                           i: nat, last: nat, j: nat) returns (k: nat)
    requires |offs| == |hit| == |marked| && Increasing(offs) && i < |offs| && last < offs[i]
    requires j < |LevelFrom(offs, hit, marked, level, index, i, last)|
    ensures k < |offs| && LevelFrom(offs, hit, marked, level, index, i, last)[j].End() == offs[k]
    ensures MarksFrom(offs, hit, marked, i, last)[k]
    decreases |offs| - i
  {
    if Picks(offs, hit, marked, i, last) {
      var m := marked[i := true];
      MarksGrow(offs, hit, m, i + 1, offs[i], i);
      if j == 0 {
        k := i;
      } else {
        LevelIgnoresPast(offs, hit, marked, m, level, index + 1, i + 1, offs[i]);
        k := LevelEndsMarked(offs, hit, m, level, index + 1, i + 1, offs[i], j - 1);
      }
    } else {
      k := LevelEndsMarked(offs, hit, marked, level, index, i + 1, last, j);
    }
  }

  // ---------------------------------------------------------------- where a level cuts

  /** The ends of a level behind byte last start with boundary i. */
  lemma {:induction false} LevelEndsFrom(offs: seq<nat>, hit: seq<bool>, marked: seq<bool>, level: nat, index: nat,
                                         i: nat, last: nat)
    requires |offs| == |hit| == |marked| && Increasing(offs) && i < |offs| && last < offs[i]
    ensures forall n :: n in LevelFrom(offs, hit, marked, level, index, i, last) ==> n.End() >= offs[i]
    decreases |offs| - i
  {
    if i + 1 < |offs| {
      if Picks(offs, hit, marked, i, last) {
        LevelEndsFrom(offs, hit, marked, level, index + 1, i + 1, offs[i]);
      } else {
        LevelEndsFrom(offs, hit, marked, level, index, i + 1, last);
      }
    }
  }

  lemma EndsCons(head: OneChunkName, rest: seq<OneChunkName>, o: nat)
    ensures EndsAt([head] + rest, o) <==> head.End() == o || EndsAt(rest, o)
  {
    var names := [head] + rest;
    assert names[0] == head;
    if EndsAt(rest, o) {
      var j :| 0 <= j < |rest| && rest[j].End() == o;
      assert names[j + 1] == rest[j];
    }
  }

  /** No end of names lies within the minimum before o. */
  ghost predicate Clear(names: seq<OneChunkName>, o: nat) {
    forall j :: 0 <= j < |names| && names[j].End() < o ==> names[j].End() + WAPROX_MIN_CHUNK_SIZE < o
  }

  lemma ClearCons(head: OneChunkName, rest: seq<OneChunkName>, o: nat)
    ensures Clear([head] + rest, o) <==> Clear(rest, o) && (head.End() < o ==> head.End() + WAPROX_MIN_CHUNK_SIZE < o)
  {
    var names := [head] + rest;
    assert names[0] == head && forall j :: 0 <= j < |rest| ==> names[j + 1] == rest[j];
  }

  /** A level ends at exactly the boundaries it hits that are marked or far from the end before. */
  lemma {:induction false} LevelCutsAt(offs: seq<nat>, hit: seq<bool>, marked: seq<bool>, level: nat, index: nat,
                                       i: nat, last: nat, k: nat)
    requires |offs| == |hit| == |marked| && Increasing(offs) && i <= k < |offs| && last < offs[i]
    ensures var names := LevelFrom(offs, hit, marked, level, index, i, last);
            EndsAt(names, offs[k])
            <==> (hit[k] || k == |offs| - 1)
                 && (marked[k] || (last + WAPROX_MIN_CHUNK_SIZE < offs[k] && Clear(names, offs[k])))
    decreases |offs| - i
  {
    hide EndsAt, Clear;
    var names := LevelFrom(offs, hit, marked, level, index, i, last);
    if Picks(offs, hit, marked, i, last) {
      var head, rest := names[0], LevelFrom(offs, hit, marked, level, index + 1, i + 1, offs[i]);
      assert names == [head] + rest && head.End() == offs[i];
      EndsCons(head, rest, offs[k]);
      ClearCons(head, rest, offs[k]);
      if k == i {
        ClearFrom(offs, hit, marked, level, index + 1, i + 1, offs[i], offs[i]);
      } else {
        LevelCutsAt(offs, hit, marked, level, index + 1, i + 1, offs[i], k);
      }
    } else if k == i {
      NotEndFrom(offs, hit, marked, level, index, i + 1, last, offs[i]);
    } else {
      LevelCutsAt(offs, hit, marked, level, index, i + 1, last, k);
    }
  }

  lemma ClearFrom(offs: seq<nat>, hit: seq<bool>, marked: seq<bool>, level: nat, index: nat, i: nat, last: nat, o: nat)
    requires |offs| == |hit| == |marked| && Increasing(offs) && i <= |offs|
    requires i < |offs| ==> last < offs[i] && o < offs[i]
    ensures Clear(LevelFrom(offs, hit, marked, level, index, i, last), o)
  {
    if i < |offs| {
      LevelEndsFrom(offs, hit, marked, level, index, i, last);
    }
  }

  lemma NotEndFrom(offs: seq<nat>, hit: seq<bool>, marked: seq<bool>, level: nat, index: nat, i: nat, last: nat, o: nat)
    requires |offs| == |hit| == |marked| && Increasing(offs) && i <= |offs|
    requires i < |offs| ==> last < offs[i] && o < offs[i]
    ensures !EndsAt(LevelFrom(offs, hit, marked, level, index, i, last), o)
  {
    if i < |offs| {
      LevelEndsFrom(offs, hit, marked, level, index, i, last);
    }
  }

  /** A level marks exactly where it ends. */
  lemma {:induction false} MarksAt(offs: seq<nat>, hit: seq<bool>, marked: seq<bool>, level: nat, index: nat, i: nat,
                                   last: nat, k: nat)
    requires |offs| == |hit| == |marked| && Increasing(offs) && k < |offs| && (i < |offs| ==> last < offs[i])
    ensures MarksFrom(offs, hit, marked, i, last)[k]
            <==> marked[k] || (i <= k && EndsAt(LevelFrom(offs, hit, marked, level, index, i, last), offs[k]))
    decreases |offs| - i
  {
    hide EndsAt;
    if i < |offs| {
      if Picks(offs, hit, marked, i, last) {
        var m, rest := marked[i := true], LevelFrom(offs, hit, marked, level, index + 1, i + 1, offs[i]);
        var head := NewName(index, level, last, Minus(offs[i], last));
        LevelIgnoresPast(offs, hit, marked, m, level, index + 1, i + 1, offs[i]);
        MarksAt(offs, hit, m, level, index + 1, i + 1, offs[i], k);
        EndsCons(head, rest, offs[k]);
      } else {
        MarksAt(offs, hit, marked, level, index, i + 1, last, k);
        if k == i {
          NotEndFrom(offs, hit, marked, level, index, i + 1, last, offs[i]);
        }
      }
    }
  }

  /** Every end of a level is a boundary. */
  lemma LevelEndsBoundary(offs: seq<nat>, hit: seq<bool>, marked: seq<bool>, level: nat, index: nat, j: nat)
    requires |offs| == |hit| == |marked| && Increasing(offs)
    requires j < |LevelFrom(offs, hit, marked, level, index, 0, 0)|
    ensures LevelFrom(offs, hit, marked, level, index, 0, 0)[j].End() in offs
  {
    var k := LevelEndsMarked(offs, hit, marked, level, index, 0, 0, j);
  }

  // ---------------------------------------------------------------- one level after another

  /** Everything marked is visible to the level that hits h. */
  ghost predicate Visible(marked: seq<bool>, h: seq<bool>) {
    |marked| == |h| && forall k :: 0 <= k < |marked| ==> marked[k] ==> h[k] || k == |h| - 1
  }

  ghost predicate Within(h: seq<bool>, h': seq<bool>) {
    |h| == |h'| && forall k :: 0 <= k < |h| ==> h[k] ==> h'[k]
  }

  /** Each end of the upper level is an end of the lower one. */
  ghost predicate Refines(upper: seq<OneChunkName>, lower: seq<OneChunkName>) {
    forall j :: 0 <= j < |upper| ==> EndsAt(lower, upper[j].End())
  }

  lemma MarksVisible(offs: seq<nat>, h: seq<bool>, marked: seq<bool>)
    requires |offs| == |h| && Visible(marked, h)
    ensures Visible(MarksFrom(offs, h, marked, 0, 0), h)
    ensures offs != [] && marked[|offs| - 1] ==> MarksFrom(offs, h, marked, 0, 0)[|offs| - 1]
  {
    forall k | 0 <= k < |offs|
      ensures var r := MarksFrom(offs, h, marked, 0, 0); (r[k] ==> h[k] || k == |h| - 1) && (marked[k] ==> r[k])
    {
      MarksGrow(offs, h, marked, 0, 0, k);
    }
  }

  /** Each end of the level is a marked boundary. */
  ghost predicate EndsMarked(names: seq<OneChunkName>, offs: seq<nat>, marked: seq<bool>) {
    |offs| == |marked| && forall j :: 0 <= j < |names| ==> MarkedAt(offs, marked, names[j].End())
  }

  ghost predicate MarkedAt(offs: seq<nat>, marked: seq<bool>, o: nat)
    requires |offs| == |marked|
  {
    exists k :: 0 <= k < |offs| && offs[k] == o && marked[k]
  }

  lemma LevelMarks(offs: seq<nat>, h: seq<bool>, marked: seq<bool>, level: nat, index: nat)
    requires Increasing(offs) && offs != [] && |offs| == |h| == |marked|
    ensures EndsMarked(LevelFrom(offs, h, marked, level, index, 0, 0), offs, MarksFrom(offs, h, marked, 0, 0))
  {
    var names := LevelFrom(offs, h, marked, level, index, 0, 0);
    var r := MarksFrom(offs, h, marked, 0, 0);
    forall j | 0 <= j < |names| ensures MarkedAt(offs, r, names[j].End()) {
      var k := LevelEndsMarked(offs, h, marked, level, index, 0, 0, j);
    }
  }

  /** A level refines whatever ends at the marks it sees. */
  lemma LevelRefines(upper: seq<OneChunkName>, offs: seq<nat>, h: seq<bool>, marked: seq<bool>, level: nat, index: nat)
    requires Increasing(offs) && |offs| == |h| && EndsMarked(upper, offs, marked) && Visible(marked, h)
    ensures Refines(upper, LevelFrom(offs, h, marked, level, index, 0, 0))
  {
    forall j | 0 <= j < |upper| ensures EndsAt(LevelFrom(offs, h, marked, level, index, 0, 0), upper[j].End()) {
      assert MarkedAt(offs, marked, upper[j].End());
      var k :| 0 <= k < |offs| && offs[k] == upper[j].End() && marked[k];
      LevelKeepsMarks(offs, h, marked, level, index, 0, 0, k);
    }
  }

  /** When only the last boundary is hit or marked, the level is the whole block. */
  lemma {:induction false} SingleName(offs: seq<nat>, hit: seq<bool>, marked: seq<bool>, level: nat, index: nat, i: nat)
    requires |offs| == |hit| == |marked| && Increasing(offs) && i < |offs|
    requires marked[|offs| - 1] && (forall k :: 0 <= k < |offs| - 1 ==> !hit[k])
    ensures LevelFrom(offs, hit, marked, level, index, i, 0) == [NewName(index, level, 0, offs[|offs| - 1])]
    decreases |offs| - i
  {
    if i + 1 < |offs| {
      SingleName(offs, hit, marked, level, index, i + 1);
    }
  }
}
