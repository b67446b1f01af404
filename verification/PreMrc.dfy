/** Chunking a buffer into the levels of the chunk tree (DoPreMRC, waprox/mrc_tree.c). */
module PreMrc {
  import opened Arith
  import opened Bytes
  import opened Word64
  import opened Rabin
  import opened Boundary
  import opened Chunker
  import opened ChunkNames
  import opened Levels

  const MAX_CHUNK_SIZE := 64 * 1024 * 5

  /** The binary logarithms of g_ChunkSize, g_MinChunkSize and g_NumMRCWays. */
  datatype Config = Config(chunkLog: nat, minLog: nat, waysLog: nat) {
    predicate Valid() {
      5 <= minLog <= chunkLog <= 16
    }

    /** The masks that end a chunk and that make a boundary. */
    function ScanMasks(): Masks
      requires Valid()
    {
      Masks(Ones(minLog), Ones(chunkLog))
    }
  }

  /** The logarithm of the chunk size after n divisions. */
  ghost function LogAt(cfg: Config, n: nat): int {
    if n == 0 then cfg.chunkLog else LogAt(cfg, n - 1) - cfg.waysLog
  }

  /** The number of levels with chunk sizes from log down to the minimum. */
  ghost function Count(log: int, min: nat, ways: nat): nat
    decreases if log >= 0 then log + 1 else 0
  {
    if log < min then 0 else if ways == 0 then 1 else 1 + Count(log - ways, min, ways)
  }

  ghost function NumLevels(cfg: Config): nat {
    Count(cfg.chunkLog, cfg.minLog, cfg.waysLog)
  }

  /** Which boundaries match the mask of a level. */
  ghost function HitsOf(bs: seq<RabinBoundary>, log: int): (h: seq<bool>)
    ensures |h| == |bs|
  {
    seq(|bs|, i requires 0 <= i < |bs| => HitAt(bs, log, i))
  }

  ghost predicate HitAt(bs: seq<RabinBoundary>, log: int, i: nat)
    requires i < |bs|
  {
    0 <= log < 64 && Matches(bs[i].finger, Ones(log))
  }

  ghost function Offsets(bs: seq<RabinBoundary>): (os: seq<nat>)
    ensures |os| == |bs| && forall i :: 0 <= i < |bs| ==> os[i] == bs[i].offset
  {
    seq(|bs|, i requires 0 <= i < |bs| => bs[i].offset)
  }

  /** Only the last boundary is marked at the start. */
  function LastMarked(n: nat): seq<bool> {
    seq(n, i => i == n - 1)
  }

  /** What the level loop has produced. */
  datatype Partial = Partial(names: seq<OneChunkName>, pli: seq<PerLevelInfo>, marked: seq<bool>)

  ghost function Add(b: Partial, level: seq<OneChunkName>, marked: seq<bool>): Partial {
    Partial(b.names + level, b.pli + [PerLevelInfo(|level|, |b.names|)], marked)
  }

  /** The names of level n. */
  ghost function LevelOf(bs: seq<RabinBoundary>, cfg: Config, b: Partial, n: nat): seq<OneChunkName>
    requires |b.marked| == |bs|
  {
    LevelFrom(Offsets(bs), HitsOf(bs, LogAt(cfg, n)), b.marked, n, |b.names|, 0, 0)
  }

  /** The first n levels. */
  ghost function Build(bs: seq<RabinBoundary>, cfg: Config, n: nat): (b: Partial)
    ensures |b.marked| == |bs| && |b.pli| == n
  {
    if n == 0 then Partial([], [], LastMarked(|bs|))
    else
      var b := Build(bs, cfg, n - 1);
      Add(b, LevelOf(bs, cfg, b, n - 1), MarksFrom(Offsets(bs), HitsOf(bs, LogAt(cfg, n - 1)), b.marked, 0, 0))
  }

  // ---------------------------------------------------------------- where the levels cut

  /** The lowest n bits are all set. */
  ghost predicate LowBits(f: Word, n: int) {
    forall b: nat :: b < n ==> b in f
  }

  /**
   A level of chunks of 2^log bytes, from the boundaries bs, below a level that ends at the boundaries
   cut: it ends at boundary k exactly when the finger there has the low bits, or k is last, and when it is
   more than the minimum behind the end before, or cut there already.
   */
  ghost predicate CutsAt(bs: seq<RabinBoundary>, log: int, cut: bool, names: seq<OneChunkName>, k: nat)
    requires k < |bs|
  {
    EndsAt(names, bs[k].offset)
    <==> (LowBits(bs[k].finger, log) || k == |bs| - 1)
         && (cut || (WAPROX_MIN_CHUNK_SIZE < bs[k].offset && Clear(names, bs[k].offset)))
  }

  /** A level ends at boundaries only. */
  ghost predicate EndsIn(names: seq<OneChunkName>, bs: seq<RabinBoundary>) {
    forall j :: 0 <= j < |names| ==> Has(bs, names[j].End())
  }

  /** The level that FillLevel yields, and the marks it leaves. */
  ghost predicate LevelRight(bs: seq<RabinBoundary>, log: int, marks: seq<bool>, names: seq<OneChunkName>,
                             marked: seq<bool>)
    requires |marks| == |bs| == |marked|
  {
    && EndsIn(names, bs)
    && (forall k :: 0 <= k < |bs| ==> CutsAt(bs, log, marks[k], names, k))
    && (forall k :: 0 <= k < |bs| ==> marked[k] == (marks[k] || EndsAt(names, bs[k].offset)))
  }

  lemma HitBits(bs: seq<RabinBoundary>, log: int, i: nat)
    requires i < |bs| && 0 <= log < 64
    ensures HitAt(bs, log, i) <==> LowBits(bs[i].finger, log)
  {
    var f := bs[i].finger;
    assert forall b: nat :: b in Ones(log) <==> b < log;
    assert Matches(f, Ones(log)) <==> Ones(log) <= f;
    if LowBits(f, log) {
      forall b: nat | b in Ones(log) ensures b in f {
      }
    }
  }

  lemma FilledRight(bs: seq<RabinBoundary>, log: int, marks: seq<bool>, level: nat, first: nat)
    requires |marks| == |bs| && 0 <= log < 64 && Increasing(Offsets(bs))
    ensures LevelRight(bs, log, marks, LevelFrom(Offsets(bs), HitsOf(bs, log), marks, level, first, 0, 0),
                       MarksFrom(Offsets(bs), HitsOf(bs, log), marks, 0, 0))
  {
    hide LevelFrom, MarksFrom, EndsAt, Clear, LowBits, HitAt, Has;
    var offs, hit := Offsets(bs), HitsOf(bs, log);
    var names := LevelFrom(offs, hit, marks, level, first, 0, 0);
    forall j | 0 <= j < |names| ensures Has(bs, names[j].End()) {
      LevelEndsBoundary(offs, hit, marks, level, first, j);
      OffsetHas(bs, names[j].End());
    }
    forall k | 0 <= k < |bs|
      ensures CutsAt(bs, log, marks[k], names, k)
      ensures MarksFrom(offs, hit, marks, 0, 0)[k] == (marks[k] || EndsAt(names, bs[k].offset))
    {
      FirstPositive(offs);
      HitBits(bs, log, k);
      LevelCutsAt(offs, hit, marks, level, first, 0, 0, k);
      MarksAt(offs, hit, marks, level, first, 0, 0, k);
    }
  }

  lemma FirstPositive(offs: seq<nat>)
    requires Increasing(offs) && offs != []
    ensures 0 < offs[0]
  {
  }

  lemma OffsetHas(bs: seq<RabinBoundary>, o: nat)
    requires o in Offsets(bs)
    ensures Has(bs, o)
  {
    var k :| 0 <= k < |bs| && Offsets(bs)[k] == o;
    assert bs[k].offset == o;
  }

  /** The chunk sizes of successive levels. */
  function LevelLog(cfg: Config, l: nat): int {
    cfg.chunkLog - l * cfg.waysLog
  }

  lemma {:induction false} LogAtIs(cfg: Config, n: nat)
    ensures LogAt(cfg, n) == LevelLog(cfg, n)
  {
    if n > 0 {
      LogAtIs(cfg, n - 1);
      assert n * cfg.waysLog == (n - 1) * cfg.waysLog + cfg.waysLog;
    }
  }

  /**
   The names of a block, level by level.  Level l has chunks of 2^(chunkLog - l * waysLog) bytes, and
   ends at the boundaries the predicate above asks for; above the first level only the end of the block
   is cut.
   */
  ghost predicate LevelsRight(bs: seq<RabinBoundary>, cfg: Config, names: seq<OneChunkName>, pli: seq<PerLevelInfo>) {
    forall l :: 0 <= l < |pli| ==> LevelCuts(bs, cfg, names, pli, l)
  }

  ghost predicate LevelCuts(bs: seq<RabinBoundary>, cfg: Config, names: seq<OneChunkName>, pli: seq<PerLevelInfo>,
                            l: nat)
    requires l < |pli|
  {
    && pli[l].Next() <= |names| && (l > 0 ==> pli[l - 1].Next() <= |names|) && EndsIn(Slice(names, pli[l]), bs)
    && forall k :: 0 <= k < |bs| ==>
         CutsAt(bs, LevelLog(cfg, l), CutAbove(bs, names, pli, l, k), Slice(names, pli[l]), k)
  }

  /** Boundary k is an end of the level above l. */
  ghost predicate CutAbove(bs: seq<RabinBoundary>, names: seq<OneChunkName>, pli: seq<PerLevelInfo>, l: nat, k: nat)
    requires l <= |pli| && k < |bs|
  {
    if l == 0 then k == |bs| - 1
    else pli[l - 1].Next() <= |names| && EndsAt(Slice(names, pli[l - 1]), bs[k].offset)
  }

  /** The levels end with the last chunk size that is not below the minimum. */
  ghost predicate LevelCount(cfg: Config, n: nat) {
    && n > 0 && (forall l :: 0 <= l < n ==> cfg.minLog <= LevelLog(cfg, l))
    && if cfg.waysLog == 0 then n == 1 else LevelLog(cfg, n) < cfg.minLog
  }

  lemma CountLevels(cfg: Config)
    requires cfg.Valid()
    ensures LevelCount(cfg, NumLevels(cfg))
  {
    hide LevelLog;
    var n := NumLevels(cfg);
    forall l | 0 <= l < n ensures cfg.minLog <= LevelLog(cfg, l) {
      LevelInRange(cfg, l);
      LogAtIs(cfg, l);
    }
    if cfg.waysLog > 0 {
      LogAtRange(cfg, n);
      LogAtIs(cfg, n);
    }
  }

  /** The marks before level n: where the level above ends. */
  ghost predicate MarkedAbove(bs: seq<RabinBoundary>, b: Partial) {
    |b.marked| == |bs| && forall k :: 0 <= k < |bs| ==> b.marked[k] == CutAbove(bs, b.names, b.pli, |b.pli|, k)
  }

  /** The marks a level leaves are its ends, when it sees those before. */
  lemma AddedMarks(bs: seq<RabinBoundary>, log: int, b: Partial, level: seq<OneChunkName>, marked: seq<bool>)
    requires |b.marked| == |bs| == |marked| && LevelRight(bs, log, b.marked, level, marked)
    requires forall k :: 0 <= k < |bs| && b.marked[k] ==> LowBits(bs[k].finger, log) || k == |bs| - 1
    ensures MarkedAbove(bs, Add(b, level, marked))
  {
    hide EndsIn, EndsAt, LowBits, Clear;
    var a := Add(b, level, marked);
    assert Slice(a.names, a.pli[|b.pli|]) == level;
    forall k | 0 <= k < |bs| ensures marked[k] == EndsAt(level, bs[k].offset) {
      assert CutsAt(bs, log, b.marked[k], level, k);
    }
  }

  /** Another level leaves the earlier ones as they are. */
  lemma AddedCuts(bs: seq<RabinBoundary>, cfg: Config, b: Partial, level: seq<OneChunkName>, marked: seq<bool>, l: nat)
    requires l < |b.pli| && LevelCuts(bs, cfg, b.names, b.pli, l)
    ensures LevelCuts(bs, cfg, Add(b, level, marked).names, Add(b, level, marked).pli, l)
  {
    hide CutsAt, EndsIn, EndsAt, LevelLog;
    SliceGrows(b.names, level, b.pli[l]);
    forall k | 0 <= k < |bs|
      ensures CutsAt(bs, LevelLog(cfg, l), CutAbove(bs, Add(b, level, marked).names, Add(b, level, marked).pli, l, k),
                     Slice(b.names, b.pli[l]), k)
    {
      assert CutsAt(bs, LevelLog(cfg, l), CutAbove(bs, b.names, b.pli, l, k), Slice(b.names, b.pli[l]), k);
      if l > 0 {
        AddedAbove(bs, b, level, marked, l, k);
      }
    }
  }

  lemma AddedAbove(bs: seq<RabinBoundary>, b: Partial, level: seq<OneChunkName>, marked: seq<bool>, l: nat, k: nat)
    requires l <= |b.pli| && k < |bs| && (l > 0 ==> b.pli[l - 1].Next() <= |b.names|)
    ensures CutAbove(bs, Add(b, level, marked).names, Add(b, level, marked).pli, l, k)
            == CutAbove(bs, b.names, b.pli, l, k)
  {
    if l > 0 {
      SliceGrows(b.names, level, b.pli[l - 1]);
    }
  }

  // ---------------------------------------------------------------- the levels are a tree

  /** What a scan guarantees of its boundary list. */
  ghost predicate ScanResult(bs: seq<RabinBoundary>, m: Masks) {
    && bs != [] && Increasing(Offsets(bs))
    && (forall k :: 0 <= k < |bs| - 1 ==> !m.Stops(bs[k].finger))
  }

  lemma BoundariesAreScan(p: Params, m: Masks, src: seq<Byte>, end: nat)
    requires p.Valid() && 0 < end <= |src|
    ensures ScanResult(Boundaries(p, m, src, end), m) && Last(Boundaries(p, m, src, end)) <= end
  {
    var fs := Fingers(p, src);
    var bs := Boundaries(p, m, src, end);
    ScanLocated(m, fs, p.from, end);
    if Scan(m, fs, p.from, end) != [] {
      forall k | 0 <= k < |bs| - 1 ensures !m.Stops(bs[k].finger) {
        ScanCuts(m, fs, p.from, end, k);
      }
    }
  }

  lemma OnesNested(a: nat, b: nat)
    requires a <= b < 64
    ensures forall f: Word :: Matches(f, Ones(b)) ==> Matches(f, Ones(a))
  {
    forall f: Word | Matches(f, Ones(b)) ensures Matches(f, Ones(a)) {
      assert Ones(a) <= Ones(b) <= f;
    }
  }

  lemma HitsWithin(bs: seq<RabinBoundary>, a: int, b: int)
    requires 0 <= a <= b < 64
    ensures Within(HitsOf(bs, b), HitsOf(bs, a))
  {
    OnesNested(a, b);
    forall i | 0 <= i < |bs| ensures HitsOf(bs, b)[i] ==> HitsOf(bs, a)[i] {
      assert HitAt(bs, b, i) ==> HitAt(bs, a, i);
    }
  }

  lemma {:induction false} LogAtRange(cfg: Config, n: nat)
    requires cfg.Valid() && (n == 0 || cfg.waysLog > 0)
    ensures LogAt(cfg, n) <= cfg.chunkLog
    ensures n <= NumLevels(cfg) ==> n + Count(LogAt(cfg, n), cfg.minLog, cfg.waysLog) == NumLevels(cfg)
  {
    if n > 0 {
      LogAtRange(cfg, n - 1);
    }
  }

  /** Level n has a chunk size in range. */
  lemma LevelInRange(cfg: Config, n: nat)
    requires cfg.Valid() && n < NumLevels(cfg)
    ensures cfg.minLog <= LogAt(cfg, n) <= cfg.chunkLog
  {
    LogAtRange(cfg, n);
  }

  // ---------------------------------------------------------------- the levels form a tree

  ghost function Slice(names: seq<OneChunkName>, info: PerLevelInfo): seq<OneChunkName>
    requires info.Next() <= |names|
  {
    names[info.firstIndex..info.Next()]
  }

  /** The names of level l tile the block, fresh and numbered in order. */
  ghost predicate GoodLevel(names: seq<OneChunkName>, info: PerLevelInfo, l: nat, total: nat) {
    && info.Next() <= |names|
    && Tiles(Slice(names, info), 0, total) && Fresh(Slice(names, info), l, info.firstIndex)
  }

  /** Level l is followed at once by level l + 1, which refines it. */
  ghost predicate Linked(names: seq<OneChunkName>, upper: PerLevelInfo, lower: PerLevelInfo) {
    && upper.Next() == lower.firstIndex && lower.Next() <= |names|
    && Refines(Slice(names, upper), Slice(names, lower))
  }

  /** The flat array holds the levels one after another, each refining the one before. */
  ghost predicate Forest(names: seq<OneChunkName>, pli: seq<PerLevelInfo>, total: nat) {
    && (pli == [] ==> names == [])
    && (pli != [] ==> pli[0].firstIndex == 0 && pli[|pli| - 1].Next() == |names|)
    && (forall l :: 0 <= l < |pli| ==> GoodLevel(names, pli[l], l, total))
    && (forall k, l :: 0 <= k < l < |pli| && l == k + 1 ==> Linked(names, pli[k], pli[l]))
  }

  lemma SliceGrows(names: seq<OneChunkName>, more: seq<OneChunkName>, info: PerLevelInfo)
    requires info.Next() <= |names|
    ensures Slice(names + more, info) == Slice(names, info)
  {
  }

  lemma ForestSnoc(b: Partial, level: seq<OneChunkName>, marked: seq<bool>, total: nat)
    requires Forest(b.names, b.pli, total) && Tiles(level, 0, total) && Fresh(level, |b.pli|, |b.names|)
    requires b.pli != [] ==> Refines(Slice(b.names, b.pli[|b.pli| - 1]), level)
    ensures Forest(Add(b, level, marked).names, Add(b, level, marked).pli, total)
  {
    hide GoodLevel, Linked, Tiles, Fresh, Refines, Slice;
    var n, info := |b.pli|, PerLevelInfo(|level|, |b.names|);
    var names, pli := b.names + level, b.pli + [info];
    LevelAdded(b.names, level, n, total);
    forall l | 0 <= l < n ensures GoodLevel(names, pli[l], l, total) {
      assert GoodLevel(b.names, b.pli[l], l, total);
      LevelStays(b.names, level, b.pli[l], l, total);
    }
    forall k, l | 0 <= k < l < |pli| && l == k + 1 ensures Linked(names, pli[k], pli[l]) {
      if l < n {
        assert Linked(b.names, b.pli[k], b.pli[l]);
        LinkStays(b.names, level, b.pli[k], b.pli[l]);
      } else {
        LinkAdded(b.names, level, b.pli[k]);
      }
    }
  }

  lemma LevelAdded(names: seq<OneChunkName>, level: seq<OneChunkName>, l: nat, total: nat)
    requires Tiles(level, 0, total) && Fresh(level, l, |names|)
    ensures GoodLevel(names + level, PerLevelInfo(|level|, |names|), l, total)
  {
    assert Slice(names + level, PerLevelInfo(|level|, |names|)) == level;
  }

  lemma LevelStays(names: seq<OneChunkName>, level: seq<OneChunkName>, info: PerLevelInfo, l: nat, total: nat)
    requires GoodLevel(names, info, l, total)
    ensures GoodLevel(names + level, info, l, total)
  {
    SliceGrows(names, level, info);
  }

  lemma LinkStays(names: seq<OneChunkName>, level: seq<OneChunkName>, upper: PerLevelInfo, lower: PerLevelInfo)
    requires Linked(names, upper, lower)
    ensures Linked(names + level, upper, lower)
  {
    SliceGrows(names, level, upper);
    SliceGrows(names, level, lower);
  }

  lemma LinkAdded(names: seq<OneChunkName>, level: seq<OneChunkName>, upper: PerLevelInfo)
    requires upper.Next() == |names| && Refines(Slice(names, upper), level)
    ensures Linked(names + level, upper, PerLevelInfo(|level|, |names|))
  {
    hide Refines;
    SliceGrows(names, level, upper);
    assert Slice(names + level, PerLevelInfo(|level|, |names|)) == level;
  }

  /** What holds between two turns of the level loop. */
  ghost predicate Progress(b: Partial, offs: seq<nat>, total: nat) {
    && Forest(b.names, b.pli, total) && |b.marked| == |offs| && offs != [] && b.marked[|offs| - 1]
    && (b.pli != [] ==> EndsMarked(Slice(b.names, b.pli[|b.pli| - 1]), offs, b.marked))
  }

  lemma ProgressStep(b: Partial, offs: seq<nat>, h: seq<bool>)
    requires Increasing(offs) && offs != [] && Progress(b, offs, offs[|offs| - 1]) && |offs| == |h|
    requires Visible(b.marked, h)
    ensures var level := LevelFrom(offs, h, b.marked, |b.pli|, |b.names|, 0, 0);
            var marked := MarksFrom(offs, h, b.marked, 0, 0);
            Progress(Add(b, level, marked), offs, offs[|offs| - 1]) && Visible(marked, h)
  {
    var n := |b.pli|;
    var level := LevelFrom(offs, h, b.marked, n, |b.names|, 0, 0);
    var marked := MarksFrom(offs, h, b.marked, 0, 0);
    MarksVisible(offs, h, b.marked);
    LevelMarks(offs, h, b.marked, n, |b.names|);
    AddLast(b, level, marked);
    assert Forest(Add(b, level, marked).names, Add(b, level, marked).pli, offs[|offs| - 1]) by {
      LevelTiles(offs, h, b.marked, n, |b.names|, 0, 0);
      if n > 0 {
        LevelRefines(Slice(b.names, b.pli[n - 1]), offs, h, b.marked, n, |b.names|);
      }
      ForestSnoc(b, level, marked, offs[|offs| - 1]);
    }
  }

  lemma AddLast(b: Partial, level: seq<OneChunkName>, marked: seq<bool>)
    ensures var b' := Add(b, level, marked);
            b'.pli[|b'.pli| - 1].Next() == |b'.names| && Slice(b'.names, b'.pli[|b'.pli| - 1]) == level
  {
  }

  lemma VisibleWithin(marked: seq<bool>, h: seq<bool>, h': seq<bool>)
    requires Visible(marked, h) && Within(h, h')
    ensures Visible(marked, h')
  {
  }

  lemma BuildStep(bs: seq<RabinBoundary>, cfg: Config, n: nat, b: Partial, h: seq<bool>)
    requires b == Build(bs, cfg, n) && h == HitsOf(bs, LogAt(cfg, n)) && bs != [] && Increasing(Offsets(bs))
    requires Progress(b, Offsets(bs), Last(bs)) && Visible(b.marked, h)
    ensures Progress(Build(bs, cfg, n + 1), Offsets(bs), Last(bs)) && Visible(Build(bs, cfg, n + 1).marked, h)
  {
    hide LevelFrom, Progress, Increasing, Visible;
    var offs := Offsets(bs);
    var level, marked := LevelFrom(offs, h, b.marked, n, |b.names|, 0, 0), MarksFrom(offs, h, b.marked, 0, 0);
    ProgressStep(b, offs, h);
    BuildNext(bs, cfg, n, LogAt(cfg, n), b, level, marked);
  }

  /** The marks after n levels are visible to level n. */
  lemma VisibleBelow(bs: seq<RabinBoundary>, cfg: Config, n: nat, marked: seq<bool>)
    requires cfg.Valid() && n < NumLevels(cfg) && |marked| == |bs|
    requires if n == 0 then marked == LastMarked(|bs|) else Visible(marked, HitsOf(bs, LogAt(cfg, n - 1)))
    ensures Visible(marked, HitsOf(bs, LogAt(cfg, n)))
  {
    if n > 0 {
      LevelInRange(cfg, n);
      LevelInRange(cfg, n - 1);
      HitsWithin(bs, LogAt(cfg, n), LogAt(cfg, n - 1));
      VisibleWithin(marked, HitsOf(bs, LogAt(cfg, n - 1)), HitsOf(bs, LogAt(cfg, n)));
    }
  }

  lemma ScanFacts(bs: seq<RabinBoundary>, m: Masks)
    requires ScanResult(bs, m)
    ensures bs != [] && Increasing(Offsets(bs))
  {
  }

  lemma NothingMarked(bs: seq<RabinBoundary>, cfg: Config)
    ensures Build(bs, cfg, 0).marked == LastMarked(|bs|)
  {
  }

  lemma BuildNothing(bs: seq<RabinBoundary>, cfg: Config)
    requires bs != []
    ensures Progress(Build(bs, cfg, 0), Offsets(bs), Last(bs))
  {
  }

  /** The first n levels of a scanned block form a forest; the marks stay visible below. */
  lemma {:induction false} BuildForest(bs: seq<RabinBoundary>, cfg: Config, n: nat)
    requires cfg.Valid() && ScanResult(bs, cfg.ScanMasks()) && n <= NumLevels(cfg)
    ensures Progress(Build(bs, cfg, n), Offsets(bs), Last(bs))
    ensures n > 0 ==> Visible(Build(bs, cfg, n).marked, HitsOf(bs, LogAt(cfg, n - 1)))
  {
    hide Progress, Visible, HitsOf, HitAt, ScanResult, LogAt, Last, NumLevels, Increasing;
    ScanFacts(bs, cfg.ScanMasks());
    if n == 0 {
      BuildNothing(bs, cfg);
    } else {
      BuildForest(bs, cfg, n - 1);
      var b := Build(bs, cfg, n - 1);
      NothingMarked(bs, cfg);
      VisibleBelow(bs, cfg, n - 1, b.marked);
      BuildStep(bs, cfg, n - 1, b, HitsOf(bs, LogAt(cfg, n - 1)));
    }
  }

  lemma StartMarked(bs: seq<RabinBoundary>, cfg: Config)
    ensures MarkedAbove(bs, Partial([], [], LastMarked(|bs|))) && LevelsRight(bs, cfg, [], [])
  {
  }

  /** One more level that cuts where it should. */
  lemma AddLevel(bs: seq<RabinBoundary>, cfg: Config, b: Partial, log: int)
    requires MarkedAbove(bs, b) && LevelsRight(bs, cfg, b.names, b.pli) && log == LevelLog(cfg, |b.pli|)
    requires |b.marked| == |bs| && 0 <= log < 64 && Increasing(Offsets(bs)) && Visible(b.marked, HitsOf(bs, log))
    requires b.pli != [] ==> b.pli[|b.pli| - 1].Next() <= |b.names|
    ensures var level := LevelFrom(Offsets(bs), HitsOf(bs, log), b.marked, |b.pli|, |b.names|, 0, 0);
            var marked := MarksFrom(Offsets(bs), HitsOf(bs, log), b.marked, 0, 0);
            MarkedAbove(bs, Add(b, level, marked))
            && LevelsRight(bs, cfg, Add(b, level, marked).names, Add(b, level, marked).pli)
  {
    hide LevelFrom, MarksFrom, LevelCuts, LevelLog, Visible, HitsOf, LevelRight, MarkedAbove, Increasing;
    var level := LevelFrom(Offsets(bs), HitsOf(bs, log), b.marked, |b.pli|, |b.names|, 0, 0);
    var marked := MarksFrom(Offsets(bs), HitsOf(bs, log), b.marked, 0, 0);
    FilledRight(bs, log, b.marked, |b.pli|, |b.names|);
    VisibleBits(bs, log, b.marked);
    AddedMarks(bs, log, b, level, marked);
    forall l | 0 <= l < |b.pli| ensures LevelCuts(bs, cfg, Add(b, level, marked).names, Add(b, level, marked).pli, l) {
      AddedCuts(bs, cfg, b, level, marked, l);
    }
    AddedLevel(bs, cfg, b, level, marked, log);
  }

  lemma AddedLevel(bs: seq<RabinBoundary>, cfg: Config, b: Partial, level: seq<OneChunkName>, marked: seq<bool>,
                   log: int)
    requires MarkedAbove(bs, b) && log == LevelLog(cfg, |b.pli|) && |marked| == |bs|
    requires b.pli != [] ==> b.pli[|b.pli| - 1].Next() <= |b.names|
    requires LevelRight(bs, log, b.marked, level, marked)
    ensures LevelCuts(bs, cfg, Add(b, level, marked).names, Add(b, level, marked).pli, |b.pli|)
  {
    hide EndsIn, EndsAt, LowBits, Clear, LevelLog;
    var a, l := Add(b, level, marked), |b.pli|;
    assert Slice(a.names, a.pli[l]) == level;
    forall k | 0 <= k < |bs| ensures CutsAt(bs, LevelLog(cfg, l), CutAbove(bs, a.names, a.pli, l, k), level, k) {
      AddedAbove(bs, b, level, marked, l, k);
      assert CutsAt(bs, log, b.marked[k], level, k);
    }
  }

  lemma VisibleBits(bs: seq<RabinBoundary>, log: int, marked: seq<bool>)
    requires |marked| == |bs| && 0 <= log < 64 && Visible(marked, HitsOf(bs, log))
    ensures forall k :: 0 <= k < |bs| && marked[k] ==> LowBits(bs[k].finger, log) || k == |bs| - 1
  {
    forall k | 0 <= k < |bs| && marked[k] ensures LowBits(bs[k].finger, log) || k == |bs| - 1 {
      HitBits(bs, log, k);
    }
  }

  /** The first n levels cut where they should. */
  lemma {:induction false} BuildCuts(bs: seq<RabinBoundary>, cfg: Config, n: nat)
    requires cfg.Valid() && ScanResult(bs, cfg.ScanMasks()) && n <= NumLevels(cfg)
    ensures MarkedAbove(bs, Build(bs, cfg, n))
    ensures LevelsRight(bs, cfg, Build(bs, cfg, n).names, Build(bs, cfg, n).pli)
  {
    hide LevelFrom, MarksFrom, LevelRight, LevelCuts, LevelLog, MarkedAbove, ScanResult, NumLevels, LogAt, Increasing;
    hide HitsOf, Visible, Build;
    BuildStart(bs, cfg);
    if n == 0 {
      StartMarked(bs, cfg);
    } else {
      BuildCuts(bs, cfg, n - 1);
      var b := Build(bs, cfg, n - 1);
      ScanFacts(bs, cfg.ScanMasks());
      LevelInRange(cfg, n - 1);
      LogAtIs(cfg, n - 1);
      BuildForest(bs, cfg, n - 1);
      NothingMarked(bs, cfg);
      VisibleBelow(bs, cfg, n - 1, b.marked);
      AddLevel(bs, cfg, b, LogAt(cfg, n - 1));
      BuildNext(bs, cfg, n - 1, LogAt(cfg, n - 1), b,
                LevelFrom(Offsets(bs), HitsOf(bs, LogAt(cfg, n - 1)), b.marked, n - 1, |b.names|, 0, 0),
                MarksFrom(Offsets(bs), HitsOf(bs, LogAt(cfg, n - 1)), b.marked, 0, 0));
    }
  }

  lemma {:induction false} BuildBlank(bs: seq<RabinBoundary>, cfg: Config, n: nat)
    ensures forall m :: m in Build(bs, cfg, n).names ==> Blank(m)
  {
    if n > 0 {
      BuildBlank(bs, cfg, n - 1);
      var b := Build(bs, cfg, n - 1);
      LevelBlank(Offsets(bs), HitsOf(bs, LogAt(cfg, n - 1)), b.marked, n - 1, |b.names|, 0, 0);
    }
  }

  /** The first level is the block itself. */
  lemma RootLevel(bs: seq<RabinBoundary>, cfg: Config)
    requires cfg.Valid() && ScanResult(bs, cfg.ScanMasks())
    ensures Build(bs, cfg, 1).names == [NewName(0, 0, 0, Last(bs))]
  {
    var top := HitsOf(bs, cfg.chunkLog);
    forall k | 0 <= k < |bs| - 1 ensures !top[k] {
      assert top[k] == HitAt(bs, cfg.chunkLog, k);
      assert !cfg.ScanMasks().Stops(bs[k].finger);
      assert 0 in Ones(cfg.chunkLog);
    }
    SingleName(Offsets(bs), top, LastMarked(|bs|), 0, 0, 0);
    assert Build(bs, cfg, 1).names == [] + LevelOf(bs, cfg, Build(bs, cfg, 0), 0);
  }

  // ---------------------------------------------------------------- the program

  lemma HitMeans(bs: seq<RabinBoundary>, log: nat, i: nat)
    requires log < 64 && i < |bs|
    ensures HitsOf(bs, log)[i] == Matches(bs[i].finger, Ones(log))
  {
  }

  lemma OffsetsGrow(bs: seq<RabinBoundary>, i: nat, last: nat)
    requires Increasing(Offsets(bs)) && i < |bs| && last < Offsets(bs)[i]
    ensures i + 1 < |bs| ==> bs[i].offset < Offsets(bs)[i + 1]
    ensures i + 1 < |bs| ==> last < Offsets(bs)[i + 1]
  {
  }

  lemma OffsetsStart(bs: seq<RabinBoundary>)
    requires Increasing(Offsets(bs)) && bs != []
    ensures 0 < Offsets(bs)[0]
  {
  }

  /** The names and marks so far, completed by the boundaries from i on, are those of the level. */
  ghost predicate Filled(offs: seq<nat>, hit: seq<bool>, level: nat, first: nat, all: seq<OneChunkName>, end: seq<bool>,
                         names: seq<OneChunkName>, marked: seq<bool>, i: nat, last: nat)
  {
    && |offs| == |hit| == |marked|
    && names + LevelFrom(offs, hit, marked, level, first + |names|, i, last) == all
    && MarksFrom(offs, hit, marked, i, last) == end
  }

  lemma FilledPick(offs: seq<nat>, hit: seq<bool>, level: nat, first: nat, all: seq<OneChunkName>, end: seq<bool>,
                   names: seq<OneChunkName>, marked: seq<bool>, i: nat, last: nat)
    requires Filled(offs, hit, level, first, all, end, names, marked, i, last) && i < |offs|
    requires Picks(offs, hit, marked, i, last)
    ensures Filled(offs, hit, level, first, all, end,
                   names + [NewName(first + |names|, level, last, Minus(offs[i], last))],
                   marked[i := true], i + 1, offs[i])
  {
    LevelIgnoresPast(offs, hit, marked, marked[i := true], level, first + |names| + 1, i + 1, offs[i]);
  }

  lemma FilledSkip(offs: seq<nat>, hit: seq<bool>, level: nat, first: nat, all: seq<OneChunkName>, end: seq<bool>,
                   names: seq<OneChunkName>, marked: seq<bool>, i: nat, last: nat)
    requires Filled(offs, hit, level, first, all, end, names, marked, i, last) && i < |offs|
    requires !Picks(offs, hit, marked, i, last)
    ensures Filled(offs, hit, level, first, all, end, names, marked, i + 1, last)
  {
  }

  lemma FilledStart(offs: seq<nat>, hit: seq<bool>, level: nat, first: nat, marked: seq<bool>)
    requires |offs| == |hit| == |marked|
    ensures Filled(offs, hit, level, first, LevelFrom(offs, hit, marked, level, first, 0, 0),
                   MarksFrom(offs, hit, marked, 0, 0), [], marked, 0, 0)
  {
  }

  lemma FilledEnd(offs: seq<nat>, hit: seq<bool>, level: nat, first: nat, all: seq<OneChunkName>, end: seq<bool>,
                  names: seq<OneChunkName>, marked: seq<bool>, last: nat)
    requires Filled(offs, hit, level, first, all, end, names, marked, |offs|, last)
    ensures names == all && marked == end
  {
  }

  /** One pass over the boundary list: the names of one level, and the marks it leaves. */
  method FillLevel(bs: seq<RabinBoundary>, chunkSize: nat, ghost log: nat, marks: seq<bool>, level: nat, first: nat)
    returns (names: seq<OneChunkName>, marked: seq<bool>)
    requires |marks| == |bs| && chunkSize == Pow2(log) && log < 64 && Increasing(Offsets(bs))
    ensures names == LevelFrom(Offsets(bs), HitsOf(bs, log), marks, level, first, 0, 0)
    ensures marked == MarksFrom(Offsets(bs), HitsOf(bs, log), marks, 0, 0)
    ensures LevelRight(bs, log, marks, names, marked)
  {
    hide Filled, LevelFrom, MarksFrom, HitsOf, HitAt, Increasing, LevelRight;
    FilledRight(bs, log, marks, level, first);
    ghost var offs, hit := Offsets(bs), HitsOf(bs, log);
    ghost var all, end := LevelFrom(offs, hit, marks, level, first, 0, 0), MarksFrom(offs, hit, marks, 0, 0);
    BitsOfMask(log);
    FilledStart(offs, hit, level, first, marks);
    if bs != [] {
      OffsetsStart(bs);
    }
    marked := marks;
    names := [];
    var i, lastOffset := 0, 0;
    while i < |bs|
      invariant 0 <= i <= |bs| == |marked| && (i < |bs| ==> lastOffset < offs[i])
      invariant Filled(offs, hit, level, first, all, end, names, marked, i, lastOffset)
    {
      HitMeans(bs, log, i);
      OffsetsGrow(bs, i, lastOffset);
      if Matches(bs[i].finger, BitsOf(chunkSize - 1)) || i + 1 == |bs| {
        var length := bs[i].offset - lastOffset;
        if !(length <= WAPROX_MIN_CHUNK_SIZE && !marked[i]) {
          FilledPick(offs, hit, level, first, all, end, names, marked, i, lastOffset);
          names := names + [NewName(first + |names|, level, lastOffset, length)];
          marked := marked[i := true];
          lastOffset := bs[i].offset;
        } else {
          FilledSkip(offs, hit, level, first, all, end, names, marked, i, lastOffset);
        }
      } else {
        FilledSkip(offs, hit, level, first, all, end, names, marked, i, lastOffset);
      }
      i := i + 1;
    }
    FilledEnd(offs, hit, level, first, all, end, names, marked, lastOffset);
  }

  /** Cut one block off the buffer and name its chunks at every level. */
  method DoPreMRC(rctx: RabinCtx, psrc: seq<Byte>, cfg: Config)
    returns (names: seq<OneChunkName>, rbSize: nat, pli: seq<PerLevelInfo>, ghost bs: seq<RabinBoundary>)
    requires rctx.rp.Valid() && cfg.Valid() && psrc != [] && rctx.maxSize > 0
    modifies rctx`finger, rctx.rp`regionPos, rctx.rp.regionBuf
    ensures rctx.rp.Valid()
    ensures bs == BlockBoundaries(rctx.ParamsOf(), cfg, psrc, rctx.maxSize)
    ensures 0 < rbSize == Last(bs) <= |psrc| && rbSize <= MAX_CHUNK_SIZE
    ensures names == AllNames(bs, cfg).names && pli == AllNames(bs, cfg).pli
    ensures var block := psrc[..if |psrc| <= MAX_CHUNK_SIZE then |psrc| else MAX_CHUNK_SIZE];
            CutRight(Masks(Ones(cfg.minLog), Ones(cfg.chunkLog)), Fingers(rctx.ParamsOf(), block), rctx.minSize,
                     if |block| <= rctx.maxSize then |block| else rctx.maxSize, bs)
    ensures LevelsRight(bs, cfg, names, pli) && LevelCount(cfg, |pli|)
    ensures Forest(names, pli, rbSize) && pli != [] && pli[0] == PerLevelInfo(1, 0)
    ensures forall n :: n in names ==> Blank(n)
    ensures Pow2(cfg.waysLog) == 1 ==> |pli| == 1
  {
    hide CutRight, LevelCuts, LevelLog, Build, Fingers;
    var len := if |psrc| <= MAX_CHUNK_SIZE then |psrc| else MAX_CHUNK_SIZE;
    var bounds;
    var minMask := MaskOfPower(cfg.minLog);
    var maxMask := MaskOfPower(cfg.chunkLog);
    rbSize, bounds := rctx.GetRabinChunkSizeEx(psrc[..len], Masks(minMask, maxMask));
    bs := bounds;
    BoundariesAreScan(rctx.ParamsOf(), cfg.ScanMasks(), psrc[..len], if len <= rctx.maxSize then len else rctx.maxSize);
    names, pli := NameLevels(bounds, cfg);
    NamesForest(bs, cfg);
    BuildCuts(bs, cfg, NumLevels(cfg));
    CountLevels(cfg);
    BuildBlank(bs, cfg, NumLevels(cfg));
    PowOrder(cfg.waysLog, 0);
    assert 0 < Offsets(bs)[|bs| - 1];
  }

  /** GetMRCMask of a size given by its logarithm. */
  method MaskOfPower(log: nat) returns (mask: Word)
    requires MIN_SIZE_LOG <= log < MIN_SIZE_LOG + NUM_SIZES - 1
    ensures mask == Ones(log)
  {
    PowOrder(MIN_SIZE_LOG, log);
    PowOrder(MIN_SIZE_LOG + NUM_SIZES - 1, log);
    mask := GetMRCMask(Pow2(log));
    MaskIsOnes(log, mask);
  }

  lemma MaskIsOnes(log: nat, mask: Word)
    requires log < 64 && MaskFor(Pow2(log), mask)
    ensures mask == Ones(log)
  {
    hide Pow2, Ones;
    var k: nat :| MIN_SIZE_LOG <= k < 64 && Pow2(k) <= Pow2(log) < 2 * Pow2(k) && mask == Ones(k);
    PowOrder(k, log);
    PowNext(k);
    PowOrder(k + 1, log);
  }

  lemma PowNext(k: nat)
    ensures Pow2(k + 1) == 2 * Pow2(k)
  {
  }

  /** The boundaries of the first block of a buffer. */
  ghost function BlockBoundaries(p: Params, cfg: Config, psrc: seq<Byte>, maxSize: nat): (bs: seq<RabinBoundary>)
    requires p.Valid() && cfg.Valid()
    ensures bs != []
  {
    var len := if |psrc| <= MAX_CHUNK_SIZE then |psrc| else MAX_CHUNK_SIZE;
    Boundaries(p, cfg.ScanMasks(), psrc[..len], if len <= maxSize then len else maxSize)
  }

  lemma BuildNext(bs: seq<RabinBoundary>, cfg: Config, n: nat, log: int, b: Partial, level: seq<OneChunkName>,
                  marked: seq<bool>)
    requires b == Build(bs, cfg, n) && log == LogAt(cfg, n)
    requires level == LevelFrom(Offsets(bs), HitsOf(bs, log), b.marked, n, |b.names|, 0, 0)
    requires marked == MarksFrom(Offsets(bs), HitsOf(bs, log), b.marked, 0, 0)
    ensures Build(bs, cfg, n + 1) == Add(b, level, marked) && LogAt(cfg, n + 1) == log - cfg.waysLog
  {
  }

  lemma BuildStart(bs: seq<RabinBoundary>, cfg: Config)
    ensures Build(bs, cfg, 0) == Partial([], [], LastMarked(|bs|)) && LogAt(cfg, 0) == cfg.chunkLog
  {
  }

  /** The level loop. */
  method NameLevels(bs: seq<RabinBoundary>, cfg: Config) returns (names: seq<OneChunkName>, pli: seq<PerLevelInfo>)
    requires cfg.Valid() && ScanResult(bs, cfg.ScanMasks())
    ensures names == AllNames(bs, cfg).names && pli == AllNames(bs, cfg).pli
  {
    hide Build, LogAt, LevelFrom, MarksFrom, Count, HitsOf, HitAt, ScanResult, Increasing, Pow2;
    ScanFacts(bs, cfg.ScanMasks());
    BuildStart(bs, cfg);
    ghost var log: int, left := cfg.chunkLog, NumLevels(cfg);
    var chunkSize := Pow2(cfg.chunkLog);
    var marked := LastMarked(|bs|);
    names, pli := [], [];
    var done := false;
    while !done
      invariant Partial(names, pli, marked) == Build(bs, cfg, |pli|) && |pli| + left == NumLevels(cfg)
      invariant !done ==> log == LogAt(cfg, |pli|) && cfg.minLog <= log <= cfg.chunkLog && chunkSize == Pow2(log)
      invariant !done ==> left == Count(log, cfg.minLog, cfg.waysLog)
      invariant done ==> left == 0
      decreases !done, left
    {
      ghost var b := Build(bs, cfg, |pli|);
      var level;
      level, marked := FillLevel(bs, chunkSize, log, marked, |pli|, |names|);
      BuildNext(bs, cfg, |pli|, log, b, level, marked);
      pli := pli + [PerLevelInfo(|level|, |names|)];
      names := names + level;
      var next := NextChunkSize(chunkSize, log, cfg);
      left := left - 1;
      if next == 0 {
        done := true;
      } else {
        chunkSize, log := next, log - cfg.waysLog;
      }
    }
  }

  /** The root stays first. */
  lemma {:induction false} RootFirst(bs: seq<RabinBoundary>, cfg: Config, n: nat)
    requires cfg.Valid() && ScanResult(bs, cfg.ScanMasks()) && n > 0
    ensures Build(bs, cfg, n).pli[0] == PerLevelInfo(1, 0)
  {
    if n == 1 {
      RootLevel(bs, cfg);
      assert Build(bs, cfg, 1).pli == [] + [PerLevelInfo(|LevelOf(bs, cfg, Build(bs, cfg, 0), 0)|, 0)];
    } else {
      RootFirst(bs, cfg, n - 1);
    }
  }

  /** The names of a block: a forest with a single root. */
  lemma NamesForest(bs: seq<RabinBoundary>, cfg: Config)
    requires cfg.Valid() && ScanResult(bs, cfg.ScanMasks())
    ensures var b := AllNames(bs, cfg);
            Forest(b.names, b.pli, Last(bs)) && b.pli != [] && b.pli[0] == PerLevelInfo(1, 0)
  {
    BuildForest(bs, cfg, NumLevels(cfg));
    RootFirst(bs, cfg, NumLevels(cfg));
  }

  /**
   Chunking an emitted block on its own gives the same boundaries, hence the same names and
   levels, and consumes it whole.
   */
  lemma RechunkNames(p: Params, cfg: Config, psrc: seq<Byte>, maxSize: nat)
    requires p.Valid() && cfg.Valid() && psrc != [] && maxSize > 0
    ensures var bs := BlockBoundaries(p, cfg, psrc, maxSize);
            && Last(bs) <= |psrc|
            && BlockBoundaries(p, cfg, psrc[..Last(bs)], maxSize) == bs
            && AllNames(BlockBoundaries(p, cfg, psrc[..Last(bs)], maxSize), cfg) == AllNames(bs, cfg)
  {
    hide AllNames, Last, Boundaries;
    var len := if |psrc| <= MAX_CHUNK_SIZE then |psrc| else MAX_CHUNK_SIZE;
    var n := Last(BlockBoundaries(p, cfg, psrc, maxSize));
    Rechunk(p, cfg.ScanMasks(), psrc[..len], if len <= maxSize then len else maxSize);
    FrontOfFront(psrc, len, n);
  }

  lemma FrontOfFront<T>(s: seq<T>, len: nat, n: nat)
    requires n <= len <= |s|
    ensures s[..len][..n] == s[..n] == s[..n][..n]
  {
  }

  /** All the names of a block and their per-level index. */
  ghost function AllNames(bs: seq<RabinBoundary>, cfg: Config): Partial {
    Build(bs, cfg, NumLevels(cfg))
  }

  /** The chunk size of the next level, or zero when this one is the last. */
  method NextChunkSize(chunkSize: nat, ghost log: nat, cfg: Config) returns (next: nat)
    requires cfg.Valid() && chunkSize == Pow2(log) && log >= cfg.minLog
    ensures next == 0 ==> Count(log, cfg.minLog, cfg.waysLog) == 1
    ensures next != 0 ==> cfg.waysLog > 0 && log >= cfg.waysLog + cfg.minLog && next == Pow2(log - cfg.waysLog)
    ensures next != 0 ==> Count(log, cfg.minLog, cfg.waysLog) == 1 + Count(log - cfg.waysLog, cfg.minLog, cfg.waysLog)
  {
    var ways := Pow2(cfg.waysLog);
    PowOrder(cfg.waysLog, 0);
    if ways == 1 {
      next := 0;
    } else {
      NextSize(log, cfg.waysLog);
      PowOrder(cfg.minLog, if log < cfg.waysLog then 0 else log - cfg.waysLog);
      next := chunkSize / ways;
      if next < Pow2(cfg.minLog) {
        next := 0;
      }
    }
  }

  lemma {:induction false} PowOrder(a: nat, b: nat)
    ensures a <= b <==> Pow2(a) <= Pow2(b)
  {
    if a > 0 && b > 0 {
      PowOrder(a - 1, b - 1);
    }
  }

  /** Dividing one power of two by another. */
  lemma NextSize(a: nat, b: nat)
    ensures Pow2(a) / Pow2(b) == if b <= a then Pow2(a - b) else 0
  {
    if b <= a {
      Pow2Add(b, a - b);
      ExactQuotient(Pow2(a), Pow2(b), Pow2(a - b));
    } else {
      PowOrder(b, a);
      SmallQuotient(Pow2(a), Pow2(b));
    }
  }

  lemma ExactQuotient(x: nat, y: nat, q: nat)
    requires y >= 1 && x == y * q
    ensures x / y == q
  {
    var d := x / y;
    assert x == y * d + x % y;
    if d < q {
      MulLess(y, d, q);
    } else if d > q {
      MulLess(y, q, d);
    }
  }

  lemma SmallQuotient(x: nat, y: nat)
    requires x < y
    ensures x / y == 0
  {
  }
}
