/**
 Bottom-up choice of the chunks to send (FlushChildren and GetCandidateList2,
 waprox/mrc_tree.c).  Starting from the lowest resolved level, the children of a chunk are
 replaced by the chunk itself when they are all hits or all misses.
 */
module Candidates {
  import opened ChunkNames
  import opened MrcTree

  datatype OneCandidate = OneCandidate(index: nat, offset: nat, length: nat, isHit: bool, sha1name: Sha1) {
    function End(): nat { offset + length }
  }

  // ---------------------------------------------------------------- covers

  predicate Contains(n: OneChunkName, p: nat) {
    n.offset <= p < n.End()
  }

  /** Some candidate contains byte p. */
  ghost predicate Covered(g: seq<OneChunkName>, cands: set<nat>, p: nat) {
    exists c :: c in cands && c < |g| && Contains(g[c], p)
  }

  /** Every byte of the block lies in exactly one candidate. */
  ghost predicate Cover(g: seq<OneChunkName>, cands: set<nat>, total: nat) {
    && (forall c :: c in cands ==> c < |g| && g[c].length > 0 && g[c].End() <= total)
    && (forall p: nat :: p < total ==> Covered(g, cands, p))
    && (forall c, d, p: nat {:trigger Contains(g[c], p), Contains(g[d], p)} ::
          c in cands && d in cands && Contains(g[c], p) && Contains(g[d], p) ==> c == d)
  }

  /** The indices from lo up to hi. */
  function Range(lo: nat, hi: nat): (r: set<nat>)
    ensures forall i: nat :: i in r <==> lo <= i < hi
    decreases hi
  {
    if hi <= lo then {} else Range(lo, hi - 1) + {hi - 1}
  }

  /** A level is a cover. */
  lemma LevelCovers(g: seq<OneChunkName>, info: PerLevelInfo, l: nat, total: nat)
    requires Level(g, info, l, total)
    ensures Cover(g, Range(info.firstIndex, info.Next()), total)
  {
    var cands := Range(info.firstIndex, info.Next());
    forall c | c in cands ensures g[c].length > 0 && g[c].End() <= total {
      assert info.Has(c);
      TileBound(g, info, l, total, c);
    }
    forall p: nat | p < total ensures Covered(g, cands, p) {
      var j := TileFind(g, info, l, total, p, info.Next() - 1);
      assert j in cands && Contains(g[j], p);
    }
    forall c, d, p: nat | c in cands && d in cands && Contains(g[c], p) && Contains(g[d], p) ensures c == d {
      assert info.Has(c) && info.Has(d);
      TileDisjoint(g, info, l, total, c, d, p);
    }
  }

  /** Children lo to hi make up q exactly. */
  ghost predicate Family(g: seq<OneChunkName>, lower: PerLevelInfo, lo: nat, hi: nat, q: nat) {
    && lower.firstIndex <= lo < hi <= lower.Next() <= |g| && q < lower.firstIndex
    && g[lo].offset == g[q].offset && g[hi - 1].End() == g[q].End()
    && (forall j :: lo <= j < hi ==> g[j].parentIdx == q)
  }

  lemma FamilyFind(g: seq<OneChunkName>, lower: PerLevelInfo, l: nat, total: nat, lo: nat, hi: nat, q: nat, p: nat)
    returns (j: nat)
    requires Level(g, lower, l, total) && Family(g, lower, lo, hi, q) && Contains(g[q], p)
    ensures lo <= j < hi && Contains(g[j], p)
  {
    j := TileFind(g, lower, l, total, p, hi - 1);
    if j < lo {
      TileOrder(g, lower, l, total, j, lo);
    }
  }

  lemma FamilyInside(g: seq<OneChunkName>, lower: PerLevelInfo, l: nat, total: nat, lo: nat, hi: nat, q: nat, j: nat,
                     p: nat)
    requires Level(g, lower, l, total) && Family(g, lower, lo, hi, q) && lo <= j < hi && Contains(g[j], p)
    ensures Contains(g[q], p)
  {
    if lo < j {
      TileOrder(g, lower, l, total, lo, j);
    }
    if j < hi - 1 {
      TileOrder(g, lower, l, total, j, hi - 1);
    }
  }

  /** Replacing a whole family by its parent keeps the cover. */
  lemma MergeCovers(g: seq<OneChunkName>, lower: PerLevelInfo, l: nat, total: nat, cands: set<nat>, lo: nat, hi: nat,
                    q: nat)
    requires Level(g, lower, l, total) && Family(g, lower, lo, hi, q) && Cover(g, cands, total)
    requires Range(lo, hi) <= cands
    ensures Cover(g, cands - Range(lo, hi) + {q}, total)
  {
    hide Level, Family, Covered, Contains, Range;
    var cands' := cands - Range(lo, hi) + {q};
    MergeBounds(g, lower, l, total, cands, lo, hi, q);
    forall p: nat | p < total ensures Covered(g, cands', p) {
      MergeCovered(g, lower, l, total, cands, lo, hi, q, p);
    }
    forall c, d, p: nat | c in cands' && d in cands' && Contains(g[c], p) && Contains(g[d], p) ensures c == d {
      MergeOwner(g, lower, l, total, cands, lo, hi, q, c, p);
      MergeOwner(g, lower, l, total, cands, lo, hi, q, d, p);
      OneOwner(g, cands, total, c, d, p);
    }
  }

  lemma MergeBounds(g: seq<OneChunkName>, lower: PerLevelInfo, l: nat, total: nat, cands: set<nat>, lo: nat, hi: nat,
                    q: nat)
    requires Level(g, lower, l, total) && Family(g, lower, lo, hi, q) && Cover(g, cands, total)
    requires Range(lo, hi) <= cands
    ensures forall c :: c in cands - Range(lo, hi) + {q} ==> c < |g| && g[c].length > 0 && g[c].End() <= total
  {
    assert hi - 1 in Range(lo, hi);
    assert lower.Has(lo) && g[lo].length > 0;
    if lo < hi - 1 {
      TileOrder(g, lower, l, total, lo, hi - 1);
    }
  }

  lemma MergeCovered(g: seq<OneChunkName>, lower: PerLevelInfo, l: nat, total: nat, cands: set<nat>, lo: nat, hi: nat,
                     q: nat, p: nat)
    requires Level(g, lower, l, total) && Family(g, lower, lo, hi, q) && Cover(g, cands, total) && p < total
    ensures Covered(g, cands - Range(lo, hi) + {q}, p)
  {
    hide Level, Family;
    FamilyBounds(g, lower, lo, hi, q);
    assert Covered(g, cands, p);
    var c :| c in cands && c < |g| && Contains(g[c], p);
    if lo <= c < hi {
      FamilyInside(g, lower, l, total, lo, hi, q, c, p);
    } else {
      assert c in cands - Range(lo, hi) + {q};
    }
  }

  /** After the merge, the owner of a byte of the family is the parent; the other owners are as before. */
  lemma MergeOwner(g: seq<OneChunkName>, lower: PerLevelInfo, l: nat, total: nat, cands: set<nat>, lo: nat, hi: nat,
                   q: nat, c: nat, p: nat)
    requires Level(g, lower, l, total) && Family(g, lower, lo, hi, q) && Cover(g, cands, total)
    requires Range(lo, hi) <= cands
    requires c in cands - Range(lo, hi) + {q} && c < |g| && Contains(g[c], p)
    ensures q < |g| && if Contains(g[q], p) then c == q else c in cands
  {
    hide Level, Cover, Family, Contains;
    FamilyBounds(g, lower, lo, hi, q);
    if Contains(g[q], p) && c != q {
      var j := FamilyFind(g, lower, l, total, lo, hi, q, p);
      assert j in Range(lo, hi);
      OneOwner(g, cands, total, c, j, p);
    }
  }

  lemma FamilyBounds(g: seq<OneChunkName>, lower: PerLevelInfo, lo: nat, hi: nat, q: nat)
    requires Family(g, lower, lo, hi, q)
    ensures lower.firstIndex <= lo < hi <= lower.Next() <= |g| && q < lower.firstIndex
  {
  }

  lemma OneOwner(g: seq<OneChunkName>, cands: set<nat>, total: nat, c: nat, d: nat, p: nat)
    requires Cover(g, cands, total) && c < |g| && d < |g| && Contains(g[c], p) && Contains(g[d], p)
    ensures c in cands && d in cands ==> c == d
  {
  }

  // ---------------------------------------------------------------- which chunks are chosen

  /** j is a child of q. */
  ghost predicate Child(g: seq<OneChunkName>, q: nat, j: nat) {
    0 < j < |g| && g[j].parentIdx == q
  }

  /** The children of q are all hits or all misses. */
  ghost predicate OneKind(g: seq<OneChunkName>, hit: set<nat>, q: nat) {
    (forall j: nat :: Child(g, q, j) ==> j in hit) || (forall j: nat :: Child(g, q, j) ==> j !in hit)
  }

  /** Above index top, q and every chunk below it have children of one kind. */
  ghost predicate Solid(g: seq<OneChunkName>, hit: set<nat>, top: nat, q: nat)
    decreases if q < |g| then |g| - q else 0
  {
    q < top ==> OneKind(g, hit, q) && forall j: nat :: q < j && Child(g, q, j) ==> Solid(g, hit, top, j)
  }

  /** A solid chunk that is not part of another. */
  ghost predicate Largest(g: seq<OneChunkName>, hit: set<nat>, top: nat, c: nat)
    requires c < |g|
  {
    Solid(g, hit, top, c) && (c > 0 && g[c].parentIdx >= 0 ==> !Solid(g, hit, top, g[c].parentIdx))
  }

  /** The candidates are the largest solid chunks before index bound. */
  ghost predicate Exact(g: seq<OneChunkName>, hit: set<nat>, cands: set<nat>, top: nat, bound: nat) {
    bound <= |g| && forall c: nat :: c in cands <==> c < bound && Largest(g, hit, top, c)
  }

  /**
   The choice while the lower level is merged into the upper one, up to byte pos: of the upper level the
   solid chunks that end there, of what is left of the lower level the solid chunks, and else the largest.
   */
  ghost predicate Risen(g: seq<OneChunkName>, hit: set<nat>, cands: set<nat>, top: nat, bound: nat,
                        upper: PerLevelInfo, lower: PerLevelInfo, pos: nat) {
    && lower.Next() <= bound <= |g| && upper.Next() <= |g|
    && (forall c: nat :: c in cands ==> upper.firstIndex <= c < bound)
    && (forall c: nat :: upper.Has(c) ==> (c in cands <==> g[c].End() <= pos && Solid(g, hit, top, c)))
    && (forall c: nat :: lower.firstIndex <= c < bound ==>
          (c in cands
           <==> if lower.Has(c) && pos <= g[c].offset then Solid(g, hit, top, c) else Largest(g, hit, top, c)))
  }

  /** The state while the lower level is merged into the upper one, up to byte pos. */
  ghost predicate Merging(g: seq<OneChunkName>, hit: set<nat>, cands: set<nat>, top: nat, bound: nat,
                          upper: PerLevelInfo, lower: PerLevelInfo, total: nat, pos: nat)
  {
    Cover(g, cands, total) && Risen(g, hit, cands, top, bound, upper, lower, pos)
  }

  /** The candidates after the family of q has been looked at. */
  ghost function Flushed(hit: set<nat>, cands: set<nat>, lo: nat, hi: nat, q: nat): set<nat> {
    var family := Range(lo, hi);
    if family <= cands && (family <= hit || family !! hit) then cands - family + {q} else cands
  }

  /** The children of q are lo to hi. */
  ghost predicate Children(g: seq<OneChunkName>, lo: nat, hi: nat, q: nat) {
    q < lo < hi <= |g| && forall j: nat :: Child(g, q, j) <==> lo <= j < hi
  }

  /** Where the family of q lies in its level. */
  lemma FamilyPlace(g: seq<OneChunkName>, lower: PerLevelInfo, l: nat, total: nat, lo: nat, hi: nat, q: nat, j: nat)
    requires Level(g, lower, l, total) && Family(g, lower, lo, hi, q) && lower.Has(j)
    ensures g[j].End() <= g[q].offset <==> j < lo
    ensures g[q].offset <= g[j].offset <==> lo <= j
    ensures g[j].End() <= g[q].End() <==> j < hi
    ensures g[q].End() <= g[j].offset <==> hi <= j
  {
    if j < lo {
      TileOrder(g, lower, l, total, j, lo);
    } else if lo < j {
      TileOrder(g, lower, l, total, lo, j);
    }
    if j < hi - 1 {
      TileOrder(g, lower, l, total, j, hi - 1);
    } else if hi - 1 < j {
      TileOrder(g, lower, l, total, hi - 1, j);
    }
  }

  /** A chunk is solid when its children are and are of one kind. */
  lemma SolidFamily(g: seq<OneChunkName>, hit: set<nat>, top: nat, lo: nat, hi: nat, q: nat)
    requires Children(g, lo, hi, q) && q < top
    ensures Solid(g, hit, top, q)
            <==> (Range(lo, hi) <= hit || Range(lo, hi) !! hit)
                 && forall j: nat :: lo <= j < hi ==> Solid(g, hit, top, j)
  {
    hide Solid;
    var family := Range(lo, hi);
    assert forall j: nat :: Child(g, q, j) <==> j in family;
    assert OneKind(g, hit, q) <==> family <= hit || family !! hit;
    SolidMeans(g, hit, top, q);
    if forall j: nat :: lo <= j < hi ==> Solid(g, hit, top, j) {
      forall j: nat | q < j && Child(g, q, j) ensures Solid(g, hit, top, j) {
        assert lo <= j < hi;
      }
    }
    if forall j: nat :: q < j && Child(g, q, j) ==> Solid(g, hit, top, j) {
      forall j: nat | lo <= j < hi ensures Solid(g, hit, top, j) {
        assert Child(g, q, j);
      }
    }
  }

  lemma SolidMeans(g: seq<OneChunkName>, hit: set<nat>, top: nat, q: nat)
    ensures Solid(g, hit, top, q)
            <==> q >= top
                 || (OneKind(g, hit, q) && forall j: nat :: q < j && Child(g, q, j) ==> Solid(g, hit, top, j))
  {
  }

  /** A family is merged exactly when its parent is solid. */
  lemma FlushedSolid(g: seq<OneChunkName>, hit: set<nat>, cands: set<nat>, top: nat, bound: nat, upper: PerLevelInfo,
                     lower: PerLevelInfo, l: nat, total: nat, lo: nat, hi: nat, q: nat)
    requires Level(g, lower, l, total) && Family(g, lower, lo, hi, q) && Children(g, lo, hi, q) && q < top
    requires Risen(g, hit, cands, top, bound, upper, lower, g[q].offset)
    ensures Flushed(hit, cands, lo, hi, q) == if Solid(g, hit, top, q) then cands - Range(lo, hi) + {q} else cands
  {
    hide Solid, Largest, Children, Level;
    SolidFamily(g, hit, top, lo, hi, q);
    FamilyBounds(g, lower, lo, hi, q);
    forall j: nat | lo <= j < hi ensures j in cands <==> Solid(g, hit, top, j) {
      FamilyPlace(g, lower, l, total, lo, hi, q, j);
    }
    if Solid(g, hit, top, q) {
      forall j: nat | j in Range(lo, hi) ensures j in cands {
        assert Solid(g, hit, top, j);
      }
    } else if Range(lo, hi) <= cands {
      forall j: nat | lo <= j < hi ensures Solid(g, hit, top, j) {
        assert j in Range(lo, hi);
      }
    }
  }

  /** One name of the upper level, after the family of q. */
  lemma UpperStep(g: seq<OneChunkName>, upper: PerLevelInfo, l: nat, total: nat, q: nat, c: nat)
    requires Level(g, upper, l, total) && upper.Has(q) && upper.Has(c) && c != q
    ensures g[c].End() <= g[q].offset <==> c < q
    ensures g[c].End() <= g[q].End() <==> c < q
    ensures g[q].offset < g[q].End()
  {
    if c < q {
      TileOrder(g, upper, l, total, c, q);
    } else {
      TileOrder(g, upper, l, total, q, c);
    }
  }

  lemma RisenStep(g: seq<OneChunkName>, hit: set<nat>, cands: set<nat>, top: nat, bound: nat, upper: PerLevelInfo,
                  lower: PerLevelInfo, l: nat, total: nat, lo: nat, hi: nat, q: nat)
    requires upper.Next() == lower.firstIndex && Level(g, lower, l + 1, total) && Level(g, upper, l, total)
    requires upper.Has(q) && Family(g, lower, lo, hi, q) && Children(g, lo, hi, q) && q < top
    requires Risen(g, hit, cands, top, bound, upper, lower, g[q].offset)
    ensures q !in cands
    ensures Risen(g, hit, Flushed(hit, cands, lo, hi, q), top, bound, upper, lower, g[q].End())
  {
    hide Solid, Level, Flushed;
    FamilyBounds(g, lower, lo, hi, q);
    FlushedSolid(g, hit, cands, top, bound, upper, lower, l + 1, total, lo, hi, q);
    var cands' := Flushed(hit, cands, lo, hi, q);
    Positive(g, upper, l, total, q);
    forall c: nat | upper.Has(c) ensures c in cands' <==> g[c].End() <= g[q].End() && Solid(g, hit, top, c) {
      if c != q {
        UpperStep(g, upper, l, total, q, c);
      }
    }
    forall c: nat | lower.firstIndex <= c < bound
      ensures c in cands'
              <==> if lower.Has(c) && g[q].End() <= g[c].offset then Solid(g, hit, top, c) else Largest(g, hit, top, c)
    {
      if lower.Has(c) {
        FamilyPlace(g, lower, l + 1, total, lo, hi, q, c);
      }
    }
  }

  lemma Positive(g: seq<OneChunkName>, info: PerLevelInfo, l: nat, total: nat, q: nat)
    requires Level(g, info, l, total) && info.Has(q)
    ensures info.Next() <= |g| && g[q].offset < g[q].End() <= total
  {
    TileBound(g, info, l, total, q);
  }

  lemma CoverStep(g: seq<OneChunkName>, hit: set<nat>, cands: set<nat>, lower: PerLevelInfo, l: nat, total: nat,
                  lo: nat, hi: nat, q: nat)
    requires Level(g, lower, l, total) && Family(g, lower, lo, hi, q) && Cover(g, cands, total)
    ensures Cover(g, Flushed(hit, cands, lo, hi, q), total)
  {
    hide Cover, Level, Family;
    if Range(lo, hi) <= cands {
      MergeCovers(g, lower, l, total, cands, lo, hi, q);
    }
  }

  /** Looking at one family. */
  lemma MergingStep(g: seq<OneChunkName>, hit: set<nat>, cands: set<nat>, top: nat, bound: nat, upper: PerLevelInfo,
                    lower: PerLevelInfo, l: nat, total: nat, lo: nat, hi: nat, q: nat)
    requires upper.Next() == lower.firstIndex && Level(g, lower, l + 1, total) && Level(g, upper, l, total)
    requires q < |g| && Family(g, lower, lo, hi, q) && upper.Has(q) && Children(g, lo, hi, q) && q < top
    requires Merging(g, hit, cands, top, bound, upper, lower, total, g[q].offset)
    ensures q !in cands
    ensures Merging(g, hit, Flushed(hit, cands, lo, hi, q), top, bound, upper, lower, total, g[q].End())
  {
    hide Cover, Level, Family, Risen, Flushed, Children;
    RisenStep(g, hit, cands, top, bound, upper, lower, l, total, lo, hi, q);
    CoverStep(g, hit, cands, lower, l + 1, total, lo, hi, q);
  }

  /** A finished level is the start of the next one up. */
  lemma MergingNext(g: seq<OneChunkName>, hit: set<nat>, cands: set<nat>, top: nat, bound: nat, above: PerLevelInfo,
                    upper: PerLevelInfo, lower: PerLevelInfo, l: nat, total: nat)
    requires Merging(g, hit, cands, top, bound, upper, lower, total, total)
    requires above.Next() == upper.firstIndex && upper.Next() == lower.firstIndex
    requires Level(g, above, l, total) && Level(g, upper, l + 1, total) && Level(g, lower, l + 2, total)
    ensures Merging(g, hit, cands, top, bound, above, upper, total, 0)
  {
    hide Cover, Solid, Largest, Level;
    forall c: nat | above.Has(c) ensures c !in cands && g[c].End() > 0 {
      Positive(g, above, l, total, c);
    }
    forall c: nat | upper.Has(c) ensures g[c].End() <= total {
      Positive(g, upper, l + 1, total, c);
    }
    forall c: nat | lower.Has(c) ensures g[c].offset < total {
      Positive(g, lower, l + 2, total, c);
    }
    LevelSome(g, above, l, total);
    Positive(g, above, l, total, above.Next() - 1);
  }

  lemma LevelSome(g: seq<OneChunkName>, info: PerLevelInfo, l: nat, total: nat)
    requires Level(g, info, l, total)
    ensures info.numNames > 0 && info.Has(info.Next() - 1)
  {
  }

  /** At the start every name of the lowest level is a candidate. */
  lemma MergingStart(g: seq<OneChunkName>, hit: set<nat>, upper: PerLevelInfo, lower: PerLevelInfo, l: nat, total: nat)
    requires upper.Next() == lower.firstIndex && Level(g, lower, l + 1, total) && Level(g, upper, l, total)
    ensures Merging(g, hit, Range(lower.firstIndex, lower.Next()), lower.firstIndex, lower.Next(), upper, lower, total,
                    0)
  {
    hide Cover;
    LevelCovers(g, lower, l + 1, total);
    assert forall c: nat :: lower.Has(c) ==> g[c].length > 0;
    assert forall c: nat :: upper.Has(c) ==> g[c].length > 0;
  }

  /** When the root's family has been looked at, the choice is exact. */
  lemma MergingDone(g: seq<OneChunkName>, hit: set<nat>, cands: set<nat>, top: nat, bound: nat, upper: PerLevelInfo,
                    lower: PerLevelInfo, l: nat, total: nat)
    requires Merging(g, hit, cands, top, bound, upper, lower, total, total)
    requires upper == PerLevelInfo(1, 0) && lower.firstIndex == 1
    requires Level(g, upper, l, total) && Level(g, lower, l + 1, total)
    ensures Cover(g, cands, total) && Exact(g, hit, cands, top, bound)
  {
    hide Cover, Solid, Level;
    Positive(g, upper, l, total, 0);
    forall c: nat ensures c in cands <==> c < bound && Largest(g, hit, top, c) {
      if lower.Has(c) {
        Positive(g, lower, l + 1, total, c);
      }
      assert upper.Has(c) <==> c == 0;
    }
  }

  // ---------------------------------------------------------------- what the choice means

  /** Parents come first; the chunks above index top have children, all of them before bound. */
  ghost predicate Nested(g: seq<OneChunkName>, top: nat, bound: nat) {
    && top < bound <= |g|
    && (forall j: nat :: 0 < j < bound ==> 0 <= g[j].parentIdx < j && g[j].parentIdx < top)
    && (forall q: nat :: 0 <= q < top ==> HasChild(g, q, bound))
    && (forall q: nat, j: nat :: 0 <= q < top && Child(g, q, j) ==> q < j < bound)
  }

  ghost predicate HasChild(g: seq<OneChunkName>, q: nat, bound: nat) {
    exists j: nat :: j < bound && Child(g, q, j)
  }

  /** The children of q are not all candidates and of one kind. */
  ghost predicate Apart(g: seq<OneChunkName>, hit: set<nat>, cands: set<nat>, q: nat) {
    exists i: nat, j: nat :: Child(g, q, i) && Child(g, q, j) && (i !in cands || (i in hit && j !in hit))
  }

  /** No family is left that could be merged. */
  lemma NoFamilyLeft(g: seq<OneChunkName>, hit: set<nat>, cands: set<nat>, top: nat, bound: nat, q: nat)
    requires Nested(g, top, bound) && Exact(g, hit, cands, top, bound) && q < top
    ensures Apart(g, hit, cands, q)
  {
    assert HasChild(g, q, bound);
    var i: nat :| i < bound && Child(g, q, i);
    if OneKind(g, hit, q) {
      if Solid(g, hit, top, q) {
        assert i !in cands;
      } else {
        var j: nat :| q < j && Child(g, q, j) && !Solid(g, hit, top, j);
        assert j !in cands;
      }
    }
  }

  /** Hits pass from parents to children. */
  ghost predicate PassedDown(g: seq<OneChunkName>, hit: set<nat>, bound: nat) {
    bound <= |g| && forall j: nat :: 0 < j < bound && g[j].parentIdx >= 0 && g[j].parentIdx in hit ==> j in hit
  }

  /** A hit is solid, so no candidate is part of a hit. */
  lemma {:induction false} HitSolid(g: seq<OneChunkName>, hit: set<nat>, top: nat, bound: nat, q: nat)
    requires Nested(g, top, bound) && PassedDown(g, hit, bound) && q in hit && q < bound
    ensures Solid(g, hit, top, q)
    decreases bound - q
  {
    if q < top {
      forall j: nat | q < j && Child(g, q, j) ensures j in hit && Solid(g, hit, top, j) {
        HitSolid(g, hit, top, bound, j);
      }
    }
  }

  lemma {:induction false} SolidBelow(g: seq<OneChunkName>, hit: set<nat>, top: nat, bound: nat, c: nat)
    requires Nested(g, top, bound) && Solid(g, hit, top, 0) && c < bound
    ensures Solid(g, hit, top, c)
    decreases c
  {
    if c > 0 {
      SolidBelow(g, hit, top, bound, g[c].parentIdx);
      assert Child(g, g[c].parentIdx, c);
    }
  }

  /** The root alone is chosen exactly when every family above the lowest level is of one kind. */
  lemma RootAlone(g: seq<OneChunkName>, hit: set<nat>, cands: set<nat>, top: nat, bound: nat)
    requires Nested(g, top, bound) && Exact(g, hit, cands, top, bound)
    ensures cands == {0} <==> forall q: nat :: 0 <= q < top ==> OneKind(g, hit, q)
  {
    hide Solid;
    if cands == {0} {
      assert 0 in cands;
      forall q: nat | 0 <= q < top ensures OneKind(g, hit, q) {
        SolidBelow(g, hit, top, bound, q);
        SolidKind(g, hit, top, q);
      }
    }
    if forall q: nat :: 0 <= q < top ==> OneKind(g, hit, q) {
      KindsSolid(g, hit, top, bound, 0);
      assert Largest(g, hit, top, 0);
      forall c: nat | c in cands ensures c == 0 {
        if c > 0 {
          SolidBelow(g, hit, top, bound, g[c].parentIdx);
        }
      }
    }
  }

  lemma SolidKind(g: seq<OneChunkName>, hit: set<nat>, top: nat, q: nat)
    requires Solid(g, hit, top, q) && q < top
    ensures OneKind(g, hit, q)
  {
  }

  lemma {:induction false} KindsSolid(g: seq<OneChunkName>, hit: set<nat>, top: nat, bound: nat, q: nat)
    requires Nested(g, top, bound) && (forall p: nat :: 0 <= p < top ==> OneKind(g, hit, p)) && q < bound
    ensures Solid(g, hit, top, q)
    decreases bound - q
  {
    if q < top {
      forall j: nat | q < j && Child(g, q, j) ensures Solid(g, hit, top, j) {
        KindsSolid(g, hit, top, bound, j);
      }
    }
  }

  /** A hit has a hit on the lowest level. */
  lemma {:induction false} HitReaches(g: seq<OneChunkName>, hit: set<nat>, top: nat, bound: nat, q: nat)
    requires Nested(g, top, bound) && PassedDown(g, hit, bound) && q in hit && q < bound
    ensures exists c: nat :: top <= c < bound && c in hit
    decreases bound - q
  {
    if q < top {
      assert HasChild(g, q, bound);
      var j: nat :| j < bound && Child(g, q, j);
      HitReaches(g, hit, top, bound, j);
    }
  }

  /** When nothing on the lowest level is a hit, the block is sent as one. */
  lemma NoHitsRoot(g: seq<OneChunkName>, hit: set<nat>, cands: set<nat>, top: nat, bound: nat)
    requires Nested(g, top, bound) && Exact(g, hit, cands, top, bound) && PassedDown(g, hit, bound)
    requires forall c: nat :: top <= c < bound ==> c !in hit
    ensures cands == {0}
  {
    hide Exact;
    forall q: nat | 0 <= q < top ensures OneKind(g, hit, q) {
      forall j: nat | Child(g, q, j) ensures j !in hit {
        if j in hit {
          HitReaches(g, hit, top, bound, j);
        }
      }
    }
    RootAlone(g, hit, cands, top, bound);
  }

  /** When everything there is a hit it need not be: here the parts of chunk 2 are known and chunk 2 is not. */
  lemma AllHitsApart(g: seq<OneChunkName>, hit: set<nat>, cands: set<nat>)
    requires |g| == 6 && g[1].parentIdx == 0 && g[2].parentIdx == 0
    requires g[3].parentIdx == 1 && g[4].parentIdx == 2 && g[5].parentIdx == 2
    requires hit == {1, 3, 4, 5} && Exact(g, hit, cands, 3, 6)
    ensures Nested(g, 3, 6) && PassedDown(g, hit, 6) && cands == {1, 2}
  {
    hide Solid;
    assert Child(g, 0, 1) && Child(g, 0, 2) && Child(g, 1, 3) && Child(g, 2, 4);
    assert !OneKind(g, hit, 0);
    assert OneKind(g, hit, 1) && OneKind(g, hit, 2);
    forall q: nat | q < 6 ensures Solid(g, hit, 3, q) <==> q > 0 {
      LeavesSolid(g, hit, 3);
      SolidMeans(g, hit, 3, q);
    }
    assert forall c: nat :: c in cands <==> c == 1 || c == 2;
  }

  lemma LeavesSolid(g: seq<OneChunkName>, hit: set<nat>, top: nat)
    ensures forall q: nat :: q >= top ==> Solid(g, hit, top, q)
  {
  }
}
