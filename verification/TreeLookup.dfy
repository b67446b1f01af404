/**
 Full-tree mode at the receiver: top-down lookup of the chunks (ResolveOneLevel,
 UpdateLookupResult and ResolveMRCTreeInMemory, waprox/mrc_tree.c).
 */
module TreeLookup {
  import opened ChunkNames
  import opened MrcTree
  import opened FullTree

  // ---------------------------------------------------------------- missing bytes

  /** The bytes of the missing chunks among names lo to k. */
  ghost function Missing(g: seq<OneChunkName>, st: seq<bool>, lo: nat, k: nat): nat
    requires k <= |g| == |st|
  {
    if k <= lo then 0 else Missing(g, st, lo, k - 1) + if st[k - 1] then 0 else g[k - 1].length
  }

  ghost predicate ParentHit(g: seq<OneChunkName>, st: seq<bool>, j: nat)
    requires j < |g| == |st|
  {
    j > 0 && 0 <= g[j].parentIdx < |st| && st[g[j].parentIdx]
  }

  /** The bytes of the chunks among names lo to k whose parent is missing. */
  ghost function Exposed(g: seq<OneChunkName>, st: seq<bool>, lo: nat, k: nat): nat
    requires k <= |g| == |st|
  {
    if k <= lo then 0 else Exposed(g, st, lo, k - 1) + if ParentHit(g, st, k - 1) then 0 else g[k - 1].length
  }

  /** The number of missing chunks among names lo to k. */
  ghost function Misses(st: seq<bool>, lo: nat, k: nat): nat
    requires k <= |st|
  {
    if k <= lo then 0 else Misses(st, lo, k - 1) + if st[k - 1] then 0 else 1
  }

  lemma {:induction false} MissingLocal(g: seq<OneChunkName>, a: seq<bool>, b: seq<bool>, lo: nat, k: nat)
    requires k <= |g| == |a| == |b| && forall j :: lo <= j < k ==> a[j] == b[j]
    ensures Missing(g, a, lo, k) == Missing(g, b, lo, k) && Misses(a, lo, k) == Misses(b, lo, k)
  {
    if k > lo {
      MissingLocal(g, a, b, lo, k - 1);
    }
  }

  /** No missing chunk, no missing byte. */
  lemma {:induction false} MissesZero(g: seq<OneChunkName>, st: seq<bool>, lo: nat, k: nat)
    requires k <= |g| == |st| && (forall j :: lo <= j < k ==> g[j].length > 0)
    ensures Misses(st, lo, k) == 0 <==> Missing(g, st, lo, k) == 0
    ensures Misses(st, lo, k) == 0 ==> forall j :: lo <= j < k ==> st[j]
  {
    if k > lo {
      MissesZero(g, st, lo, k - 1);
    }
  }

  /** The next child has the same parent, or the next parent begins with it. */
  lemma NextParent(g: seq<OneChunkName>, upper: PerLevelInfo, lower: PerLevelInfo, l: nat, total: nat, k: nat)
    requires Level(g, upper, l, total) && Level(g, lower, l + 1, total) && Parented(g, upper, lower) && lower.Has(k)
    requires lower.Has(k + 1)
    ensures g[k + 1].offset == g[k].End()
    ensures g[k + 1].parentIdx == g[k].parentIdx
            || (&& g[k + 1].parentIdx == g[k].parentIdx + 1
                && g[g[k].parentIdx].End() == g[k].End() == g[g[k + 1].parentIdx].offset)
  {
    var p, q := g[k].parentIdx, g[k + 1].parentIdx;
    assert upper.Has(p) && upper.Has(q) && Inside(g[k], g[p]) && Inside(g[k + 1], g[q]);
    if q < p {
      TileOrder(g, upper, l, total, q, p);
    } else if p < q {
      TileOrder(g, upper, l, total, p, q);
      assert upper.Has(p + 1);
      TileDisjoint(g, upper, l, total, p + 1, q, g[p].End());
    }
  }

  lemma FirstChild(g: seq<OneChunkName>, upper: PerLevelInfo, lower: PerLevelInfo, l: nat, total: nat)
    requires Level(g, upper, l, total) && Level(g, lower, l + 1, total) && Parented(g, upper, lower)
    ensures lower.Has(lower.firstIndex) && g[lower.firstIndex].parentIdx == upper.firstIndex
    ensures g[lower.firstIndex].offset == g[upper.firstIndex].offset == 0
  {
    assert lower.Has(lower.firstIndex) && upper.Has(upper.firstIndex);
    TileDisjoint(g, upper, l, total, g[lower.firstIndex].parentIdx, upper.firstIndex, 0);
  }

  lemma FinalChild(g: seq<OneChunkName>, upper: PerLevelInfo, lower: PerLevelInfo, l: nat, total: nat)
    requires Level(g, upper, l, total) && Level(g, lower, l + 1, total) && Parented(g, upper, lower)
    ensures lower.Has(lower.Next() - 1) && g[lower.Next() - 1].parentIdx == upper.Next() - 1
    ensures g[lower.Next() - 1].End() == g[upper.Next() - 1].End()
  {
    var k := lower.Next() - 1;
    assert lower.Has(k) && upper.Has(upper.Next() - 1);
    if g[k].parentIdx < upper.Next() - 1 {
      TileOrder(g, upper, l, total, g[k].parentIdx, upper.Next() - 1);
    }
  }

  /** Up to a child, the exposed bytes are the missing bytes up to its parent, and its part of that. */
  lemma {:induction false} ExposedTo(g: seq<OneChunkName>, st: seq<bool>, upper: PerLevelInfo, lower: PerLevelInfo,
                                     l: nat, total: nat, k: nat)
    requires Level(g, upper, l, total) && Level(g, lower, l + 1, total) && Parented(g, upper, lower) && |st| == |g|
    requires lower.Has(k) && upper.Next() <= lower.firstIndex
    ensures var q := g[k].parentIdx;
            && upper.Has(q) && g[q].offset <= g[k].offset
            && Exposed(g, st, lower.firstIndex, k) ==
                 Missing(g, st, upper.firstIndex, q) + if st[q] then 0 else g[k].offset - g[q].offset
    decreases k
  {
    hide Level, Parented;
    if k == lower.firstIndex {
      FirstChild(g, upper, lower, l, total);
      ParentIn(g, upper, lower, k);
      LevelRange(g, upper, l, total);
    } else {
      ExposedTo(g, st, upper, lower, l, total, k - 1);
      NextParent(g, upper, lower, l, total, k - 1);
      ParentIn(g, upper, lower, k - 1);
      ParentIn(g, upper, lower, k);
    }
  }

  lemma ParentIn(g: seq<OneChunkName>, upper: PerLevelInfo, lower: PerLevelInfo, k: nat)
    requires Parented(g, upper, lower) && lower.Has(k)
    ensures upper.Next() <= |g| && k < |g| && g[k].parentIdx >= 0 && upper.Has(g[k].parentIdx)
    ensures Inside(g[k], g[g[k].parentIdx])
  {
  }

  /** The chunks under missing chunks make up exactly the missing bytes. */
  lemma ExposedAll(g: seq<OneChunkName>, st: seq<bool>, upper: PerLevelInfo, lower: PerLevelInfo, l: nat, total: nat)
    requires Level(g, upper, l, total) && Level(g, lower, l + 1, total) && Parented(g, upper, lower) && |st| == |g|
    requires upper.Next() <= lower.firstIndex
    ensures lower.Next() <= |g| && upper.Next() <= |g|
    ensures Exposed(g, st, lower.firstIndex, lower.Next()) == Missing(g, st, upper.firstIndex, upper.Next())
  {
    hide Level, Parented;
    FinalChild(g, upper, lower, l, total);
    var k := lower.Next() - 1;
    ExposedTo(g, st, upper, lower, l, total, k);
    ParentIn(g, upper, lower, k);
    LevelRange(g, lower, l + 1, total);
    LevelRange(g, upper, l, total);
  }

  lemma {:induction false} MissingSet(g: seq<OneChunkName>, st: seq<bool>, lo: nat, k: nat, j: nat)
    requires k <= |g| == |st| && lo <= j < k && !st[j]
    ensures Missing(g, st[j := true], lo, k) == Missing(g, st, lo, k) - g[j].length
    ensures Misses(st[j := true], lo, k) == Misses(st, lo, k) - 1
  {
    if j == k - 1 {
      MissingLocal(g, st, st[j := true], lo, k - 1);
    } else {
      MissingSet(g, st, lo, k - 1, j);
    }
  }

  // ---------------------------------------------------------------- which chunks are hits

  /** Exactly as large as its parent, hence the same chunk. */
  predicate SameAsParent(g: seq<OneChunkName>, j: nat)
    requires j < |g|
  {
    j > 0 && 0 <= g[j].parentIdx < |g| && g[j].length == g[g[j].parentIdx].length
  }

  /** A chunk counts as a hit below a hit, or when it is looked up and known. */
  ghost predicate Hit(g: seq<OneChunkName>, known: Sha1 -> bool, j: nat)
    requires j < |g|
  {
    if j > 0 && 0 <= g[j].parentIdx < j && Hit(g, known, g[j].parentIdx) then true
    else !SameAsParent(g, j) && known(g[j].sha1name)
  }

  /** a is j or one of the chunks it is part of. */
  ghost predicate Around(g: seq<OneChunkName>, a: nat, j: nat)
    requires j < |g|
  {
    a == j || (j > 0 && 0 <= g[j].parentIdx < j && Around(g, a, g[j].parentIdx))
  }

  /** A hit is part of a known chunk that is smaller than its parent, and only such a chunk is looked up. */
  lemma {:induction false} HitIsKnownAround(g: seq<OneChunkName>, known: Sha1 -> bool, j: nat)
    requires j < |g|
    ensures Hit(g, known, j)
            <==> exists a: nat :: a < |g| && Around(g, a, j) && !SameAsParent(g, a) && known(g[a].sha1name)
    decreases j
  {
    if j > 0 && 0 <= g[j].parentIdx < j {
      HitIsKnownAround(g, known, g[j].parentIdx);
    }
    if !SameAsParent(g, j) && known(g[j].sha1name) {
      assert Around(g, j, j);
    }
  }

  ghost predicate StatesTo(g: seq<OneChunkName>, known: Sha1 -> bool, st: seq<bool>, k: nat) {
    k <= |g| == |st| && forall j :: 0 <= j < k ==> st[j] == Hit(g, known, j)
  }

  ghost predicate NeedsLookup(g: seq<OneChunkName>, st: seq<bool>, j: nat)
    requires j < |g| == |st|
  {
    !ParentHit(g, st, j) && !SameAsParent(g, j)
  }

  /** The names of the level before index k have been prepared: hits below hits, misses otherwise. */
  ghost predicate Prepared(g: seq<OneChunkName>, was: seq<bool>, st: seq<bool>, info: PerLevelInfo, k: nat,
                           lookups: seq<nat>, same: nat) {
    && |st| == |was| == |g| && info.firstIndex <= k <= info.Next() <= |g|
    && (forall j :: 0 <= j < |g| && !(info.firstIndex <= j < k) ==> st[j] == was[j])
    && (forall j :: info.firstIndex <= j < k ==> st[j] == ParentHit(g, was, j))
    && Misses(st, info.firstIndex, k) == same + |lookups|
    && Missing(g, st, info.firstIndex, k) == Exposed(g, was, info.firstIndex, k)
    && (forall x :: 0 <= x < |lookups| ==> info.firstIndex <= lookups[x] < k && NeedsLookup(g, was, lookups[x]))
    && (forall x, y :: 0 <= x < y < |lookups| ==> lookups[x] < lookups[y])
    && (forall j :: info.firstIndex <= j < k && NeedsLookup(g, was, j) ==> j in lookups)
  }

  /** Parents lie above the level. */
  ghost predicate Above(g: seq<OneChunkName>, info: PerLevelInfo) {
    info.Next() <= |g| && forall j :: info.Has(j) && j > 0 ==> 0 <= g[j].parentIdx < info.firstIndex
  }

  lemma PrepareStep(g: seq<OneChunkName>, was: seq<bool>, st: seq<bool>, info: PerLevelInfo, k: nat, lookups: seq<nat>,
                    same: nat)
    requires Prepared(g, was, st, info, k, lookups, same) && Above(g, info) && info.Has(k)
    ensures ParentHit(g, st, k) == ParentHit(g, was, k)
    ensures ParentHit(g, was, k) ==> Prepared(g, was, st[k := true], info, k + 1, lookups, same)
    ensures !ParentHit(g, was, k) && SameAsParent(g, k) ==>
              Prepared(g, was, st[k := false], info, k + 1, lookups, same + 1)
    ensures !ParentHit(g, was, k) && !SameAsParent(g, k) ==>
              Prepared(g, was, st[k := false], info, k + 1, lookups + [k], same)
  {
    MissingLocal(g, st, st[k := true], info.firstIndex, k);
    MissingLocal(g, st, st[k := false], info.firstIndex, k);
    assert k > 0 ==> st[g[k].parentIdx] == was[g[k].parentIdx];
  }

  /** The first x lookups have been answered. */
  ghost predicate Answered(g: seq<OneChunkName>, known: Sha1 -> bool, was: seq<bool>, st: seq<bool>, info: PerLevelInfo,
                           lookups: seq<nat>, x: nat) {
    && x <= |lookups| && |st| == |was| == |g|
    && (forall y :: 0 <= y < |lookups| ==> lookups[y] < |g|)
    && (forall y :: 0 <= y < x ==> st[lookups[y]] == known(g[lookups[y]].sha1name))
    && (forall y :: x <= y < |lookups| ==> !st[lookups[y]])
    && (forall j :: 0 <= j < |g| && j !in lookups ==> st[j] == was[j])
  }

  lemma AnswerStep(g: seq<OneChunkName>, known: Sha1 -> bool, was: seq<bool>, st: seq<bool>, info: PerLevelInfo,
                   lookups: seq<nat>, x: nat)
    requires Answered(g, known, was, st, info, lookups, x) && x < |lookups|
    requires forall y, z :: 0 <= y < z < |lookups| ==> lookups[y] < lookups[z]
    ensures Answered(g, known, was, st[lookups[x] := known(g[lookups[x]].sha1name)], info, lookups, x + 1)
  {
  }

  /** After the answers the states of the level are right. */
  lemma AnsweredStates(g: seq<OneChunkName>, known: Sha1 -> bool, orig: seq<bool>, was: seq<bool>, st: seq<bool>,
                       info: PerLevelInfo, lookups: seq<nat>, same: nat)
    requires StatesTo(g, known, orig, info.firstIndex) && Prepared(g, orig, was, info, info.Next(), lookups, same)
    requires Above(g, info)
    requires Answered(g, known, was, st, info, lookups, |lookups|)
    ensures StatesTo(g, known, st, info.Next())
  {
    forall j | 0 <= j < info.Next() ensures st[j] == Hit(g, known, j) {
      if j < info.firstIndex {
        assert j !in lookups;
      } else {
        assert ParentHit(g, orig, j) <==> j > 0 && Hit(g, known, g[j].parentIdx);
        if NeedsLookup(g, orig, j) {
          assert j in lookups;
          var y :| 0 <= y < |lookups| && lookups[y] == j;
        } else {
          assert j !in lookups;
        }
      }
    }
  }

  // ---------------------------------------------------------------- the program

  class ChunkTreeInfo {
    const pNames: seq<OneChunkName>
    const perLevelInfo: seq<PerLevelInfo>
    const chunkState: array<bool>
    var curResolvingLevel: nat
    var lowLevel: nat
    var numChunkUnresolved: nat
    var numMissingChunks: nat
    var bytesMissingChunks: int
    var bytesHits: int
    var numLocalHits: nat
    var numLocalMisses: nat

    constructor (pNames: seq<OneChunkName>, perLevelInfo: seq<PerLevelInfo>)
      ensures this.pNames == pNames && this.perLevelInfo == perLevelInfo && fresh(chunkState)
      ensures chunkState.Length == |pNames|
      ensures forall j :: 0 <= j < chunkState.Length ==> !chunkState[j]
    {
      this.pNames, this.perLevelInfo := pNames, perLevelInfo;
      chunkState := new bool[|pNames|](_ => false);
      curResolvingLevel, lowLevel, numChunkUnresolved, numMissingChunks := 0, 0, 0, 0;
      bytesMissingChunks, bytesHits, numLocalHits, numLocalMisses := 0, 0, 0, 0;
    }

    /** Hits and misses always make up the root. */
    ghost predicate Balanced(info: PerLevelInfo, total: nat)
      reads this, chunkState
    {
      && chunkState.Length == |pNames| && info.Next() <= |pNames|
      && bytesHits + bytesMissingChunks == total
      && bytesMissingChunks == Missing(pNames, chunkState[..], info.firstIndex, info.Next())
      && numMissingChunks + numChunkUnresolved == Misses(chunkState[..], info.firstIndex, info.Next())
    }

    /** One answered lookup. */
    method UpdateLookupResult(isHit: bool, newIdx: nat, ghost info: PerLevelInfo, ghost total: nat)
      requires Balanced(info, total) && info.Has(newIdx) && !chunkState[newIdx] && numChunkUnresolved > 0
      modifies this`numChunkUnresolved, this`bytesMissingChunks, this`bytesHits, this`numLocalHits,
               this`numMissingChunks, this`numLocalMisses, chunkState
      ensures Balanced(info, total) && chunkState[..] == old(chunkState[..])[newIdx := isHit]
      ensures numChunkUnresolved == old(numChunkUnresolved) - 1
      ensures bytesMissingChunks == old(bytesMissingChunks) - (if isHit then pNames[newIdx].length else 0) >= 0
    {
      ghost var st := chunkState[..];
      MissingSet(pNames, st, info.firstIndex, info.Next(), newIdx);
      numChunkUnresolved := numChunkUnresolved - 1;
      chunkState[newIdx] := isHit;
      assert chunkState[..] == st[newIdx := isHit];
      if isHit {
        bytesMissingChunks := bytesMissingChunks - pNames[newIdx].length;
        numLocalHits := numLocalHits + 1;
        bytesHits := bytesHits + pNames[newIdx].length;
      } else {
        assert st[newIdx := false] == st;
        numMissingChunks := numMissingChunks + 1;
        numLocalMisses := numLocalMisses + 1;
      }
    }

    /** Prepare a level: which of its chunks have to be looked up. */
    method ResolveOneLevel(level: nat) returns (chunksToLookup: seq<nat>)
      requires level < |perLevelInfo| && chunkState.Length == |pNames| && Above(pNames, perLevelInfo[level])
      requires perLevelInfo[level].firstIndex == 0 <==> level == 0
      requires forall j :: perLevelInfo[level].Has(j) ==> pNames[j].length > 0
      modifies this`curResolvingLevel, this`numMissingChunks, this`numChunkUnresolved, this`lowLevel, chunkState
      ensures Prepared(pNames, old(chunkState[..]), chunkState[..], perLevelInfo[level], perLevelInfo[level].Next(),
                       chunksToLookup, numMissingChunks)
      ensures numChunkUnresolved == |chunksToLookup| && curResolvingLevel == level
      ensures lowLevel == if old(lowLevel) > level then old(lowLevel) else level
    {
      hide Prepared, Above;
      var info := perLevelInfo[level];
      curResolvingLevel, numMissingChunks, numChunkUnresolved := level, 0, 0;
      lowLevel := if lowLevel > level then lowLevel else level;
      chunksToLookup := [];
      ghost var was := chunkState[..];
      PrepareStart(pNames, was, info);
      for i := 0 to info.numNames
        invariant Prepared(pNames, was, chunkState[..], info, info.firstIndex + i, chunksToLookup, numMissingChunks)
        invariant numChunkUnresolved == |chunksToLookup| && curResolvingLevel == level
        invariant lowLevel == if old(lowLevel) > level then old(lowLevel) else level
      {
        var newIdx := info.firstIndex + i;
        ghost var st := chunkState[..];
        AboveAt(pNames, info, newIdx);
        PrepareStep(pNames, was, st, info, newIdx, chunksToLookup, numMissingChunks);
        var parent := if newIdx == 0 then 0 else pNames[newIdx].parentIdx;
        var underHit := level > 0 && chunkState[parent];
        assert underHit == ParentHit(pNames, st, newIdx);
        if underHit || pNames[newIdx].length == 0 {
          chunkState[newIdx] := true;
          assert chunkState[..] == st[newIdx := true];
        } else {
          chunkState[newIdx] := false;
          assert chunkState[..] == st[newIdx := false];
          if level > 0 && pNames[newIdx].length == pNames[parent].length {
            numMissingChunks := numMissingChunks + 1;
          } else {
            chunksToLookup := chunksToLookup + [newIdx];
            numChunkUnresolved := numChunkUnresolved + 1;
          }
        }
      }
    }

    /** Answer the lookups of a level. */
    method LookupAll(known: Sha1 -> bool, chunksToLookup: seq<nat>, ghost info: PerLevelInfo, ghost total: nat)
      requires Balanced(info, total) && numChunkUnresolved == |chunksToLookup|
      requires forall x :: 0 <= x < |chunksToLookup| ==> info.Has(chunksToLookup[x]) && !chunkState[chunksToLookup[x]]
      requires forall x, y :: 0 <= x < y < |chunksToLookup| ==> chunksToLookup[x] < chunksToLookup[y]
      modifies this`numChunkUnresolved, this`bytesMissingChunks, this`bytesHits, this`numLocalHits,
               this`numMissingChunks, this`numLocalMisses, chunkState
      ensures Balanced(info, total) && numChunkUnresolved == 0
      ensures Answered(pNames, known, old(chunkState[..]), chunkState[..], info, chunksToLookup, |chunksToLookup|)
      ensures bytesMissingChunks <= old(bytesMissingChunks)
    {
      hide Misses, Missing;
      var j := 0;
      ghost var was := chunkState[..];
      while numChunkUnresolved > 0
        invariant 0 <= j <= |chunksToLookup| && numChunkUnresolved == |chunksToLookup| - j && Balanced(info, total)
        invariant Answered(pNames, known, was, chunkState[..], info, chunksToLookup, j)
        invariant bytesMissingChunks <= old(bytesMissingChunks)
      {
        var newIdx := chunksToLookup[j];
        ghost var st := chunkState[..];
        AnswerStep(pNames, known, was, st, info, chunksToLookup, j);
        assert !st[chunksToLookup[j]];
        UpdateLookupResult(known(pNames[newIdx].sha1name), newIdx, info, total);
        j := j + 1;
      }
    }

    /** The level has been resolved: right states and balanced counts, nothing pending. */
    ghost predicate ResolvedLevel(known: Sha1 -> bool, level: nat, total: nat)
      reads this, chunkState
    {
      && level < |perLevelInfo| && Balanced(perLevelInfo[level], total) && numChunkUnresolved == 0
      && StatesTo(pNames, known, chunkState[..], perLevelInfo[level].Next())
    }

    /** Resolve one level completely, given the levels above. */
    method ResolveLevel(known: Sha1 -> bool, level: nat, ghost total: nat)
      requires Tree(pNames, perLevelInfo, total) && level < |perLevelInfo| && chunkState.Length == |pNames|
      requires level > 0 ==> ResolvedLevel(known, level - 1, total)
      requires level == 0 ==> bytesMissingChunks == total && bytesHits == 0
      requires lowLevel <= level
      modifies this, chunkState
      ensures ResolvedLevel(known, level, total) && lowLevel == level
      ensures bytesMissingChunks <= old(bytesMissingChunks)
      ensures level > 0 && bytesMissingChunks == old(bytesMissingChunks) ==> old(numMissingChunks) <= numMissingChunks
    {
      hide Tree, Prepared, Answered, Missing, Misses, Exposed, StatesTo;
      ghost var info := perLevelInfo[level];
      ghost var orig := chunkState[..];
      TreeAbove(pNames, perLevelInfo, total, level);
      ExposedIs(pNames, perLevelInfo, total, level, orig);
      var lookups := ResolveOneLevel(level);
      ghost var was := chunkState[..];
      ghost var same := numMissingChunks;
      PreparedMeans(pNames, orig, was, info, lookups, same);
      LookupAll(known, lookups, info, total);
      StatesStart(pNames, known, orig, info.firstIndex);
      AnsweredStates(pNames, known, orig, was, chunkState[..], info, lookups, same);
      if level > 0 && bytesMissingChunks == old(bytesMissingChunks) {
        NoHitsMore(pNames, perLevelInfo, total, level, known, orig, chunkState[..]);
      }
    }

    /**
     Look up the tree from the root down, stopping early when a whole level is there.  At the end
     the states of the levels visited are right, hits and misses make up the root, and what is
     missing is what the last level visited misses.
     */
    method ResolveMRCTreeInMemory(known: Sha1 -> bool, ghost total: nat)
      requires Tree(pNames, perLevelInfo, total) && chunkState.Length == |pNames|
      modifies this, chunkState
      ensures ResolvedLevel(known, lowLevel, total)
      ensures bytesMissingChunks == 0 <==> numMissingChunks == 0
      ensures numMissingChunks == 0 || lowLevel == |perLevelInfo| - 1
      ensures bytesHits + bytesMissingChunks == pNames[0].length
    {
      hide Tree, Missing, Misses, StatesTo;
      TreeRoot(pNames, perLevelInfo, total);
      bytesMissingChunks := pNames[0].length;
      numMissingChunks, lowLevel, numLocalHits, numLocalMisses, bytesHits := 0, 0, 0, 0, 0;
      var prevNumMissingChunks := 0;
      var prevBytesMissingChunks := pNames[0].length * 2;
      for i := 0 to |perLevelInfo|
        invariant i > 0 ==>
                    && ResolvedLevel(known, i - 1, total) && lowLevel == i - 1
                    && prevBytesMissingChunks == bytesMissingChunks
        invariant i > 0 ==>
                    prevNumMissingChunks <= numMissingChunks && (bytesMissingChunks == 0 <==> numMissingChunks == 0)
        invariant i == 0 ==>
                    && bytesMissingChunks == total && bytesHits == 0 && lowLevel == 0
                    && prevBytesMissingChunks == 2 * total
      {
        ResolveLevel(known, i, total);
        TreePositive(pNames, perLevelInfo, total, i);
        MissesZero(pNames, chunkState[..], perLevelInfo[i].firstIndex, perLevelInfo[i].Next());
        if prevBytesMissingChunks > bytesMissingChunks {
          prevBytesMissingChunks := bytesMissingChunks;
          prevNumMissingChunks := numMissingChunks;
        } else {
          assert prevBytesMissingChunks == bytesMissingChunks && prevNumMissingChunks <= numMissingChunks;
        }
        if numMissingChunks == 0 {
          break;
        }
      }
    }
  }

  lemma StatesStart(g: seq<OneChunkName>, known: Sha1 -> bool, st: seq<bool>, k: nat)
    requires |st| == |g|
    ensures StatesTo(g, known, st, 0)
  {
  }

  lemma PreparedMeans(g: seq<OneChunkName>, was: seq<bool>, st: seq<bool>, info: PerLevelInfo, lookups: seq<nat>,
                      same: nat)
    requires Prepared(g, was, st, info, info.Next(), lookups, same)
    ensures info.Next() <= |g| == |st| == |was|
    ensures Misses(st, info.firstIndex, info.Next()) == same + |lookups|
    ensures Missing(g, st, info.firstIndex, info.Next()) == Exposed(g, was, info.firstIndex, info.Next())
    ensures forall x :: 0 <= x < |lookups| ==> info.Has(lookups[x]) && !st[lookups[x]]
    ensures forall x, y :: 0 <= x < y < |lookups| ==> lookups[x] < lookups[y]
  {
  }

  lemma TreeRoot(g: seq<OneChunkName>, pli: seq<PerLevelInfo>, total: nat)
    requires Tree(g, pli, total)
    ensures |g| > 0 && g[0].length == total > 0 && pli != [] && pli[0] == PerLevelInfo(1, 0)
  {
    assert Level(g, pli[0], 0, total);
  }

  lemma TreePositive(g: seq<OneChunkName>, pli: seq<PerLevelInfo>, total: nat, level: nat)
    requires Tree(g, pli, total) && level < |pli|
    ensures pli[level].Next() <= |g| && forall j :: pli[level].Has(j) ==> g[j].length > 0
  {
    assert Level(g, pli[level], level, total);
  }

  lemma TreeAbove(g: seq<OneChunkName>, pli: seq<PerLevelInfo>, total: nat, level: nat)
    requires Tree(g, pli, total) && level < |pli|
    ensures Above(g, pli[level]) && (pli[level].firstIndex == 0 <==> level == 0)
    ensures forall j :: pli[level].Has(j) ==> g[j].length > 0
    ensures level > 0 ==> pli[level - 1].Next() == pli[level].firstIndex
  {
    hide Tree, Level, Parented, Pair;
    TreePositive(g, pli, total, level);
    TreeRoot(g, pli, total);
    if level > 0 {
      TreeAt(g, pli, total, level - 1);
      LevelRange(g, pli[level - 1], level - 1, total);
      ParentedAbove(g, pli[level - 1], pli[level]);
    }
  }

  lemma ParentedAbove(g: seq<OneChunkName>, upper: PerLevelInfo, lower: PerLevelInfo)
    requires Parented(g, upper, lower) && upper.Next() == lower.firstIndex
    ensures Above(g, lower)
  {
  }

  /** What a level exposes is what the level above misses; the root exposes everything. */
  lemma ExposedIs(g: seq<OneChunkName>, pli: seq<PerLevelInfo>, total: nat, level: nat, st: seq<bool>)
    requires Tree(g, pli, total) && level < |pli| && |st| == |g|
    ensures pli[level].Next() <= |g|
    ensures level == 0 ==> Exposed(g, st, pli[0].firstIndex, pli[0].Next()) == total
    ensures level > 0 ==> pli[level - 1].Next() <= |g| && Exposed(g, st, pli[level].firstIndex, pli[level].Next())
                          == Missing(g, st, pli[level - 1].firstIndex, pli[level - 1].Next())
  {
    TreePositive(g, pli, total, level);
    if level == 0 {
      TreeRoot(g, pli, total);
      assert Exposed(g, st, 0, 0) == 0 && Exposed(g, st, 0, 1) == g[0].length;
    } else {
      TreeAt(g, pli, total, level - 1);
      ExposedAll(g, st, pli[level - 1], pli[level], level - 1, total);
    }
  }

  /** When as much is missing as is exposed, every exposed chunk is missing. */
  lemma {:induction false} AllExposedMissing(g: seq<OneChunkName>, st: seq<bool>, lo: nat, k: nat)
    requires k <= |g| == |st| && (forall j :: lo <= j < k ==> g[j].length > 0 && (ParentHit(g, st, j) ==> st[j]))
    ensures Missing(g, st, lo, k) <= Exposed(g, st, lo, k)
    ensures Missing(g, st, lo, k) == Exposed(g, st, lo, k) ==> forall j :: lo <= j < k ==> st[j] == ParentHit(g, st, j)
  {
    if k > lo {
      AllExposedMissing(g, st, lo, k - 1);
    }
  }

  /** The chunks of the level that are missing are the exposed ones. */
  ghost predicate Exactly(g: seq<OneChunkName>, st: seq<bool>, info: PerLevelInfo)
    requires info.Next() <= |g| == |st|
  {
    forall j :: info.Has(j) ==> st[j] == ParentHit(g, st, j)
  }

  lemma ExposedExactly(g: seq<OneChunkName>, pli: seq<PerLevelInfo>, total: nat, level: nat, known: Sha1 -> bool,
                       st: seq<bool>)
    requires Tree(g, pli, total) && level < |pli| && StatesTo(g, known, st, pli[level].Next())
    requires Missing(g, st, pli[level].firstIndex, pli[level].Next()) ==
               Exposed(g, st, pli[level].firstIndex, pli[level].Next())
    ensures Exactly(g, st, pli[level])
  {
    hide Tree, Missing, Exposed, Above, Hit, ParentHit;
    TreeAbove(g, pli, total, level);
    HitsInherit(g, known, st, pli[level]);
    AllExposedMissing(g, st, pli[level].firstIndex, pli[level].Next());
  }

  /** If exactly the exposed chunks are missing there are at least as many of them as missing parents. */
  lemma {:induction false} MissesTo(g: seq<OneChunkName>, st: seq<bool>, upper: PerLevelInfo, lower: PerLevelInfo,
                                    l: nat, total: nat, k: nat)
    requires Level(g, upper, l, total) && Level(g, lower, l + 1, total) && Parented(g, upper, lower) && |st| == |g|
    requires lower.Has(k)
    requires upper.Next() <= lower.firstIndex && lower.Next() <= |g| && Exactly(g, st, lower)
    ensures k < |g| && 0 <= g[k].parentIdx < |g|
    ensures Misses(st, lower.firstIndex, k + 1) >= Misses(st, upper.firstIndex, g[k].parentIdx + 1)
    decreases k
  {
    hide Level, Parented;
    ParentIn(g, upper, lower, k);
    if k == lower.firstIndex {
      FirstChild(g, upper, lower, l, total);
    } else {
      ParentIn(g, upper, lower, k - 1);
      MissesTo(g, st, upper, lower, l, total, k - 1);
      NextParent(g, upper, lower, l, total, k - 1);
    }
  }

  lemma {:induction false} ExposedLocal(g: seq<OneChunkName>, a: seq<bool>, b: seq<bool>, info: PerLevelInfo, k: nat)
    requires Above(g, info) && |a| == |b| == |g| && info.firstIndex <= k <= info.Next()
    requires forall j :: 0 <= j < info.firstIndex ==> a[j] == b[j]
    ensures Exposed(g, a, info.firstIndex, k) == Exposed(g, b, info.firstIndex, k)
    decreases k
  {
    if k > info.firstIndex {
      ExposedLocal(g, a, b, info, k - 1);
    }
  }

  /** A level that finds nothing has at least as many missing chunks as the level above. */
  lemma NoHitsMore(g: seq<OneChunkName>, pli: seq<PerLevelInfo>, total: nat, level: nat, known: Sha1 -> bool,
                   was: seq<bool>, st: seq<bool>)
    requires Tree(g, pli, total) && 0 < level < |pli| && |was| == |st| == |g| && pli[level].Next() <= |g|
    requires pli[level - 1].Next() <= |g|
    requires StatesTo(g, known, was, pli[level].firstIndex) && StatesTo(g, known, st, pli[level].Next())
    requires Missing(g, st, pli[level].firstIndex, pli[level].Next()) ==
               Missing(g, was, pli[level - 1].firstIndex, pli[level - 1].Next())
    ensures Misses(was, pli[level - 1].firstIndex, pli[level - 1].Next()) <= Misses(st, pli[level].firstIndex,
                                                                                    pli[level].Next())
  {
    hide Tree, Level, Parented, Pair, Hit, Missing, Misses, Exposed, Above, StatesTo, Exactly, ParentHit;
    var upper, lower := pli[level - 1], pli[level];
    TreeAt(g, pli, total, level - 1);
    TreeAbove(g, pli, total, level);
    ExposedIs(g, pli, total, level, was);
    StatesAgree(g, known, was, st, lower);
    ExposedLocal(g, was, st, lower, lower.Next());
    MissingLocal(g, was, st, upper.firstIndex, upper.Next());
    ExposedExactly(g, pli, total, level, known, st);
    FinalChild(g, upper, lower, level - 1, total);
    MissesTo(g, st, upper, lower, level - 1, total, lower.Next() - 1);
  }

  lemma StatesAgree(g: seq<OneChunkName>, known: Sha1 -> bool, was: seq<bool>, st: seq<bool>, info: PerLevelInfo)
    requires StatesTo(g, known, was, info.firstIndex) && StatesTo(g, known, st, info.Next())
    ensures |was| == |st| && forall j :: 0 <= j < info.firstIndex ==> was[j] == st[j]
  {
    hide Hit;
  }

  lemma HitsInherit(g: seq<OneChunkName>, known: Sha1 -> bool, st: seq<bool>, info: PerLevelInfo)
    requires Above(g, info) && StatesTo(g, known, st, info.Next())
    ensures forall j :: info.Has(j) && ParentHit(g, st, j) ==> st[j]
  {
    forall j | info.Has(j) && ParentHit(g, st, j) ensures st[j] {
      assert st[g[j].parentIdx] == Hit(g, known, g[j].parentIdx);
    }
  }

  lemma PrepareStart(g: seq<OneChunkName>, was: seq<bool>, info: PerLevelInfo)
    requires |was| == |g| && Above(g, info)
    ensures info.Next() <= |g| && Prepared(g, was, was, info, info.firstIndex, [], 0)
  {
  }

  lemma AboveAt(g: seq<OneChunkName>, info: PerLevelInfo, j: nat)
    requires Above(g, info) && info.Has(j)
    ensures info.Next() <= |g| && (j > 0 ==> 0 <= g[j].parentIdx < info.firstIndex)
  {
  }
}
