/** Split and Join over encoded rows. */
module Reshape {
  import opened Float32
  import opened Ranking
  import opened Rows
  import opened Transfer
  import opened Import

  // ---- Planning ----

  function Sum(counts: seq<u64>): nat {
    if counts == [] then 0 else Sum(counts[..|counts| - 1]) + counts[|counts| - 1]
  }

  /** u64 addition in a release build. */
  function AddWrapping(a: u64, b: u64): (r: u64)
    ensures r == (a + b) % U64
  {
    if a + b < U64 then a + b else a + b - U64
  }

  /** What `iter().sum()` computes in a release build. */
  function WrappedSum(counts: seq<u64>): u64 {
    if counts == [] then 0 else AddWrapping(WrappedSum(counts[..|counts| - 1]), counts[|counts| - 1])
  }

  lemma {:induction false} WrappedSumIsRemainder(counts: seq<u64>)
    ensures WrappedSum(counts) == Sum(counts) % U64
  {
    if counts != [] { WrappedSumIsRemainder(counts[..|counts| - 1]); }
  }

  lemma {:induction false} PrefixSumsGrow(counts: seq<u64>, n: nat)
    requires n <= |counts|
    ensures Sum(counts[..n]) <= Sum(counts)
  {
    if n == |counts| {
      assert counts[..n] == counts;
    } else {
      PrefixSumsGrow(counts[..|counts| - 1], n);
      assert counts[..|counts| - 1][..n] == counts[..n];
    }
  }

  lemma EvenShareFits(rows: nat, targets: nat)
    requires 0 < targets
    ensures rows / targets <= rows
    ensures 0 < rows % targets ==> rows / targets < rows
    ensures Bytes(rows / targets, targets) + rows % targets == rows
  {
    BytesIsProduct(rows / targets, targets);
    BytesMonotone(rows / targets, 1, targets);
  }

  /** The share of target `i`. */
  function EvenShare(rows: u64, targets: nat, i: nat): u64
    requires 0 < targets
  {
    EvenShareFits(rows, targets);
    rows / targets + (if i < rows % targets then 1 else 0)
  }

  /** An even split puts the remainder on the earlier targets; explicit counts
      must have one entry per target and the right sum, as u64 computes it. */
  function PlanCounts(rows: u64, targets: nat, requested: seq<u64>): Result<seq<u64>> {
    if targets == 0 then Err(RowCountMismatch)
    else if requested == [] then Ok(seq(targets, i requires 0 <= i < targets => EvenShare(rows, targets, i)))
    else if |requested| != targets then Err(RowCountMismatch)
    else if WrappedSum(requested) != rows then Err(RowCountMismatch)
    else Ok(requested)
  }

  /** The u64 sum lets a plan through that asks for 2^64 rows too many. */
  lemma WrappedPlanPasses()
    ensures PlanCounts(5, 2, [U64 - 1, 6]) == Ok([U64 - 1, 6]) && Sum([U64 - 1, 6]) == U64 + 5
  {
    var counts: seq<u64> := [U64 - 1, 6];
    assert counts[..1] == [U64 - 1] && counts[..1][..0] == [];
    assert Sum(counts[..1]) == U64 - 1 && WrappedSum(counts[..1]) == U64 - 1;
  }

  lemma {:induction false} EvenPrefix(rows: u64, targets: nat, n: nat)
    requires 0 < targets && n <= targets
    ensures Sum(PlanCounts(rows, targets, []).value[..n])
         == Bytes(rows / targets, n) + (if n < rows % targets then n else rows % targets)
  {
    var counts := PlanCounts(rows, targets, []).value;
    if n > 0 {
      assert counts[..n][..n - 1] == counts[..n - 1];
      EvenPrefix(rows, targets, n - 1);
    }
  }

  /** An even plan hands out every row, and no two targets differ by more than one. */
  lemma EvenPlanIsExact(rows: u64, targets: nat)
    requires 0 < targets
    ensures var counts := PlanCounts(rows, targets, []).value;
            && |counts| == targets && Sum(counts) == rows
            && (forall i, j :: 0 <= i < j < targets ==> counts[j] <= counts[i] <= counts[j] + 1)
  {
    var counts := PlanCounts(rows, targets, []).value;
    EvenPrefix(rows, targets, targets);
    assert counts[..targets] == counts;
    EvenShareFits(rows, targets);
  }

  // ---- Moving ranges ----

  /** One source range to ship. In a plan a count of 0 means no rows. */
  datatype ExportPlan = ExportPlan(source: Stored, start: u64, count: u64)

  predicate PlanReadable(p: ExportPlan) {
    Sound(p.source) && (p.count == 0 || p.start + p.count <= p.source.index.rows)
  }

  function EmptyBlock(s: Stored): RowBlock {
    RowBlock(s.index.dim, s.index.bitWidth, 0, [], [], s.index.calibration, [])
  }

  function PlanRun(p: ExportPlan): Run
    requires PlanReadable(p)
  {
    if p.count == 0 then EMPTY_RUN else RunAt(p.source, p.start, p.count)
  }

  function PlansRun(plans: seq<ExportPlan>): Run
    requires forall p :: p in plans ==> PlanReadable(p)
  {
    if plans == [] then EMPTY_RUN else PlansRun(plans[..|plans| - 1]).Then(PlanRun(plans[|plans| - 1]))
  }

  predicate AgreeOnShape(a: Stored, b: Stored) {
    a.index.dim == b.index.dim && a.index.bitWidth == b.index.bitWidth && a.index.calibration == b.index.calibration
  }

  /** The index made of `run`, shaped like `s`. */
  function Shaped(s: Stored, run: Run): Stored {
    Stored(Index(s.index.dim, s.index.bitWidth, run.rows, run.packed, run.scales, s.index.calibration),
           Some(run.labels))
  }

  datatype Shape = Shape(dim: nat, bitWidth: nat, calibration: Calibration)

  function BlockShape(b: RowBlock): Shape {
    Shape(b.dim, b.bitWidth, b.calibration)
  }

  function SourceShape(s: Stored): Shape {
    Shape(s.index.dim, s.index.bitWidth, s.index.calibration)
  }

  function BlockShapes(blocks: seq<RowBlock>): set<Shape> {
    if blocks == [] then {} else BlockShapes(blocks[..|blocks| - 1]) + {BlockShape(blocks[|blocks| - 1])}
  }

  function PlanShapes(plans: seq<ExportPlan>): set<Shape> {
    if plans == [] then {} else PlanShapes(plans[..|plans| - 1]) + {SourceShape(plans[|plans| - 1].source)}
  }

  lemma {:induction false} BlockShapesUniform(blocks: seq<RowBlock>, shape: Shape)
    requires forall b :: b in blocks ==> BlockShape(b) == shape
    ensures BlockShapes(blocks) == if blocks == [] then {} else {shape}
  {
    if blocks != [] { BlockShapesUniform(blocks[..|blocks| - 1], shape); }
  }

  lemma {:induction false} BlockShapesHold(blocks: seq<RowBlock>, b: RowBlock)
    requires b in blocks
    ensures BlockShape(b) in BlockShapes(blocks)
  {
    if b != blocks[|blocks| - 1] {
      assert blocks == blocks[..|blocks| - 1] + [blocks[|blocks| - 1]];
      BlockShapesHold(blocks[..|blocks| - 1], b);
    }
  }

  lemma {:induction false} PlanShapesUniform(plans: seq<ExportPlan>, shape: Shape)
    requires forall p :: p in plans ==> SourceShape(p.source) == shape
    ensures PlanShapes(plans) == if plans == [] then {} else {shape}
  {
    if plans != [] { PlanShapesUniform(plans[..|plans| - 1], shape); }
  }

  lemma {:induction false} PlanShapesHold(plans: seq<ExportPlan>, p: ExportPlan)
    requires p in plans
    ensures SourceShape(p.source) in PlanShapes(plans)
  {
    if p != plans[|plans| - 1] {
      assert plans == plans[..|plans| - 1] + [plans[|plans| - 1]];
      PlanShapesHold(plans[..|plans| - 1], p);
    }
  }

  lemma {:induction false} BlockShapesConcat(a: seq<RowBlock>, b: seq<RowBlock>)
    ensures BlockShapes(a + b) == BlockShapes(a) + BlockShapes(b)
  {
    if b == [] {
      assert a + b == a;
    } else {
      assert (a + b)[..|a + b| - 1] == a + b[..|b| - 1];
      BlockShapesConcat(a, b[..|b| - 1]);
    }
  }

  /** The blocks shipped for `plans`: the same rows, the same shapes. */
  ghost predicate BlocksOf(blocks: seq<RowBlock>, plans: seq<ExportPlan>) {
    && (forall p :: p in plans ==> PlanReadable(p))
    && (forall b :: b in blocks ==> Aligned(b))
    && Gather(blocks) == PlansRun(plans)
    && BlockShapes(blocks) == PlanShapes(plans)
    && (blocks == [] <==> plans == [])
  }

  lemma PlansNext(plans: seq<ExportPlan>, p: ExportPlan)
    requires PlanReadable(p) && forall x :: x in plans ==> PlanReadable(x)
    ensures forall x :: x in plans + [p] ==> PlanReadable(x)
    ensures PlansRun(plans + [p]) == PlansRun(plans).Then(PlanRun(p))
    ensures PlanShapes(plans + [p]) == PlanShapes(plans) + {SourceShape(p.source)}
  {
    assert (plans + [p])[..|plans + [p]| - 1] == plans;
  }

  lemma CarriedShapes(more: seq<RowBlock>, s: Stored)
    requires more != [] && forall b :: b in more ==> Carries(b, s)
    ensures BlockShapes(more) == {SourceShape(s)}
  {
    assert forall b :: b in more ==> BlockShape(b) == SourceShape(s);
    BlockShapesUniform(more, SourceShape(s));
  }

  lemma BlocksOfNext(blocks: seq<RowBlock>, plans: seq<ExportPlan>, more: seq<RowBlock>, p: ExportPlan)
    requires BlocksOf(blocks, plans) && PlanReadable(p) && more != []
    requires Gather(more) == PlanRun(p) && forall b :: b in more ==> Carries(b, p.source)
    ensures BlocksOf(blocks + more, plans + [p])
  {
    GatherConcat(blocks, more);
    BlockShapesConcat(blocks, more);
    CarriedShapes(more, p.source);
    PlansNext(plans, p);
    assert forall b :: b in more ==> Aligned(b);
  }

  lemma PlanAligned(p: ExportPlan)
    requires PlanReadable(p)
    ensures AlignedRun(Width(p.source.index), PlanRun(p))
  {
  }

  lemma {:induction false} PlansAligned(plans: seq<ExportPlan>, width: nat)
    requires forall p :: p in plans ==> PlanReadable(p) && Width(p.source.index) == width
    ensures AlignedRun(width, PlansRun(plans))
  {
    if plans != [] {
      var init, last := plans[..|plans| - 1], plans[|plans| - 1];
      assert last in plans && forall p :: p in init ==> p in plans;
      PlansAligned(init, width);
      PlanAligned(last);
      AlignedThen(width, PlansRun(init), PlanRun(last));
    }
  }

  lemma PlansRunIsWhole(plans: seq<ExportPlan>)
    requires plans != [] && forall p :: p in plans ==> PlanReadable(p) && AgreeOnShape(plans[0].source, p.source)
    ensures Sound'(Shaped(plans[0].source, PlansRun(plans)))
  {
    assert plans[0] in plans;
    PlansAligned(plans, Width(plans[0].source.index));
  }

  lemma ThenOne(p: ExportPlan)
    requires PlanReadable(p)
    ensures EMPTY_RUN.Then(PlanRun(p)) == PlanRun(p)
  {
    ThenAssociates(PlanRun(p), EMPTY_RUN, EMPTY_RUN);
  }

  /** `Sound`, but for the bound on the row count. */
  predicate Sound'(s: Stored) {
    var x := s.index;
    && GoodParts(x.dim, x.bitWidth, x.rows, x.packed, x.scales, x.calibration)
    && s.labels.Some? && |s.labels.value| == x.rows
  }

  /** When the transfer of `plans` into one target succeeds. */
  predicate Transferable(expected: nat, plans: seq<ExportPlan>) {
    && plans != []
    && (forall p :: p in plans ==> PlanReadable(p))
    && (forall p :: p in plans ==> AgreeOnShape(plans[0].source, p.source))
    && PlansRun(plans).rows == expected
  }

  lemma SameShapes(blocks: seq<RowBlock>, plans: seq<ExportPlan>)
    requires BlocksOf(blocks, plans) && plans != []
    ensures (forall b :: b in blocks ==> SameShape(blocks[0], b))
       <==> (forall p :: p in plans ==> AgreeOnShape(plans[0].source, p.source))
    ensures (forall b :: b in blocks ==> SameShape(blocks[0], b)) ==> SameShape(blocks[0], EmptyBlock(plans[0].source))
  {
    var s, t := BlockShape(blocks[0]), SourceShape(plans[0].source);
    BlockShapesHold(blocks, blocks[0]);
    PlanShapesHold(plans, plans[0]);
    if forall b :: b in blocks ==> SameShape(blocks[0], b) {
      BlockShapesUniform(blocks, s);
      forall p | p in plans ensures AgreeOnShape(plans[0].source, p.source) { PlanShapesHold(plans, p); }
    }
    if forall p :: p in plans ==> AgreeOnShape(plans[0].source, p.source) {
      PlanShapesUniform(plans, t);
      forall b | b in blocks ensures SameShape(blocks[0], b) { BlockShapesHold(blocks, b); }
    }
  }

  lemma ImportableIffTransferable(expected: u64, blocks: seq<RowBlock>, plans: seq<ExportPlan>)
    requires BlocksOf(blocks, plans)
    ensures Importable(expected, blocks) <==> Transferable(expected, plans)
    ensures Importable(expected, blocks) ==> Imported(expected, blocks) == Shaped(plans[0].source, PlansRun(plans))
  {
    if plans != [] {
      SameShapes(blocks, plans);
      if Transferable(expected, plans) { PlansRunIsWhole(plans); }
    }
  }

  /** Pipe every plan's blocks into one target. */
  method ImportRanges(expected: u64, plans: seq<ExportPlan>) returns (r: Result<Stored>)
    requires forall p :: p in plans ==> Sound(p.source)
    ensures r.Ok? <==> Transferable(expected, plans)
    ensures r.Ok? ==> r.value == Shaped(plans[0].source, PlansRun(plans))
  {
    var blocks: seq<RowBlock> := [];
    for n := 0 to |plans|
      invariant BlocksOf(blocks, plans[..n])
    {
      assert plans[n] in plans && plans[..n + 1] == plans[..n] + [plans[n]];
      var more := PlanBlocks(plans[n]);
      if more.Err? { return Err(more.error); }
      BlocksOfNext(blocks, plans[..n], more.value, plans[n]);
      blocks := blocks + more.value;
    }
    assert plans[..|plans|] == plans;
    ImportableIffTransferable(expected, blocks, plans);
    r := ImportRows(expected, blocks);
  }

  /** One plan's blocks: a zero count never reaches the export. */
  method PlanBlocks(plan: ExportPlan) returns (r: Result<seq<RowBlock>>)
    requires Sound(plan.source)
    ensures r.Ok? <==> PlanReadable(plan)
    ensures r.Ok? ==> r.value != [] && Gather(r.value) == PlanRun(plan)
                      && forall b :: b in r.value ==> Carries(b, plan.source)
  {
    if plan.count == 0 {
      GatherOne(EmptyBlock(plan.source));
      return Ok([EmptyBlock(plan.source)]);
    }
    r := ExportRows(plan.source, plan.start, plan.count);
  }

  // ---- Split ----

  /** The pieces a plan cuts a source into: consecutive runs in target order. */
  function Pieces(s: Stored, counts: seq<u64>): (r: seq<Stored>)
    requires Sound(s) && Sum(counts) <= s.index.rows
    ensures |r| == |counts|
  {
    if counts == [] then []
    else
      var init := counts[..|counts| - 1];
      Pieces(s, init) + [Cut(s, Sum(init), counts[|counts| - 1])]
  }

  lemma PrefixStep(counts: seq<u64>, j: nat)
    requires j < |counts|
    ensures counts[..j + 1][..|counts[..j + 1]| - 1] == counts[..j]
    ensures Sum(counts[..j + 1]) == Sum(counts[..j]) + counts[j]
    ensures Sum(counts[..j + 1]) <= Sum(counts)
  {
    assert counts[..j + 1][..j] == counts[..j];
    PrefixSumsGrow(counts, j + 1);
  }

  lemma OnePlan(p: ExportPlan, rows: nat)
    requires PlanReadable(p) && PlansRun([p]).rows == rows
    ensures Transferable(rows, [p])
  {
  }

  lemma OneRun(p: ExportPlan)
    requires PlanReadable(p)
    ensures PlansRun([p]) == PlanRun(p)
  {
    PlansNext([], p);
    assert [] + [p] == [p];
    ThenOne(p);
  }

  lemma PlanRunCounts(p: ExportPlan)
    requires PlanReadable(p)
    ensures PlanRun(p).rows == p.count
  {
  }

  lemma ShapedRunIsCut(s: Stored, start: nat, count: nat)
    requires InRange(s, start, count)
    ensures Shaped(s, RunAt(s, start, count)) == Cut(s, start, count)
    ensures count == 0 ==> RunAt(s, start, count) == EMPTY_RUN
  {
  }

  /** Ship one range of a source to one target. */
  method StageOne(s: Stored, start: u64, count: u64) returns (r: Result<Stored>)
    requires Sound(s) && start <= s.index.rows
    ensures r.Ok? <==> start + count <= s.index.rows
    ensures r.Ok? ==> r.value == Cut(s, start, count)
  {
    var plan := ExportPlan(s, start, count);
    r := ImportRanges(count, [plan]);
    if start + count <= s.index.rows {
      OneRun(plan);
      PlanRunCounts(plan);
      OnePlan(plan, count);
      ShapedRunIsCut(s, start, count);
    } else {
      assert plan in [plan] && !PlanReadable(plan);
    }
  }

  /** What a caller can check before asking for a split. */
  predicate SplitPossible(rows: nat, targets: nat, requested: seq<u64>) {
    && 0 < targets
    && (requested != [] ==> |requested| == targets && Sum(requested) == rows)
  }

  /** The u64 sum can accept a plan whose true sum is too large; a plan no
      larger than the source is a plan for exactly the source's rows. */
  lemma PlanDecides(rows: u64, targets: nat, requested: seq<u64>)
    ensures var plan := PlanCounts(rows, targets, requested);
            && (SplitPossible(rows, targets, requested) <==> plan.Ok? && Sum(plan.value) <= rows)
            && (SplitPossible(rows, targets, requested) ==> Sum(plan.value) == rows && |plan.value| == targets)
  {
    if 0 < targets {
      if requested == [] { EvenPlanIsExact(rows, targets); } else { WrappedSumIsRemainder(requested); }
    }
  }

  /** One target at a time. `start` wraps as a u64 does; no run that succeeds
      ever lets it. */
  method StageAll(s: Stored, counts: seq<u64>) returns (r: Result<seq<Stored>>)
    requires Sound(s)
    ensures r.Ok? <==> Sum(counts) <= s.index.rows
    ensures r.Ok? ==> r.value == Pieces(s, counts)
  {
    var pieces: seq<Stored> := [];
    var start: u64 := 0;
    for j := 0 to |counts|
      invariant start == Sum(counts[..j]) <= s.index.rows && pieces == Pieces(s, counts[..j])
    {
      PrefixStep(counts, j);
      var imported := StageOne(s, start, counts[j]);
      if imported.Err? { return Err(imported.error); }
      pieces := pieces + [imported.value];
      start := AddWrapping(start, counts[j]);
    }
    assert counts[..|counts|] == counts;
    return Ok(pieces);
  }

  /** Plan the counts, then ship one consecutive range to each target. */
  method StageSplit(s: Stored, targets: nat, requested: seq<u64>) returns (r: Result<seq<Stored>>, counts: seq<u64>)
    requires Sound(s)
    ensures r.Ok? <==> SplitPossible(s.index.rows, targets, requested)
    ensures r.Ok? ==> |counts| == targets && Sum(counts) == s.index.rows && r.value == Pieces(s, counts)
    ensures r.Ok? ==> counts == if requested == [] then PlanCounts(s.index.rows, targets, []).value else requested
  {
    var plan := PlanCounts(s.index.rows, targets, requested);
    PlanDecides(s.index.rows, targets, requested);
    counts := [];
    if plan.Err? { return Err(plan.error), counts; }
    counts := plan.value;
    r := StageAll(s, counts);
  }

  // ---- Join ----

  /** The row counts the nodes report; an index may be one that has never held
      a row, whose dim is not bound. */
  function RowCounts(shards: seq<Stored>): seq<u64> {
    if shards == [] then [] else RowCounts(shards[..|shards| - 1]) + [RowCount(shards[|shards| - 1])]
  }

  /** `len as u64`; no index is longer than a u64 counts. */
  function RowCount(s: Stored): u64 {
    if s.index.rows < U64 then s.index.rows else 0
  }

  lemma RowCountsStep(shards: seq<Stored>, i: nat)
    requires i < |shards|
    ensures WrappedSum(RowCounts(shards[..i + 1]))
         == AddWrapping(WrappedSum(RowCounts(shards[..i])), RowCount(shards[i]))
  {
    assert shards[..i + 1][..i] == shards[..i];
    var counts := RowCounts(shards[..i + 1]);
    assert counts[..|counts| - 1] == RowCounts(shards[..i]);
  }

  /** Shards of one dim, one bit width and one calibration pair. */
  predicate Servable(shards: seq<Stored>) {
    shards != [] && forall s :: s in shards ==> AgreeOnShape(shards[0], s)
  }

  /** The three comparisons of one shard with the first. */
  method Disagreement(head: Stored, shard: Stored) returns (e: Option<Error>)
    ensures e.None? <==> AgreeOnShape(head, shard)
    ensures e != Some(EmptyCollection)
  {
    DifferenceIsExact(head.index.calibration, shard.index.calibration);
    if shard.index.dim != head.index.dim { return Some(DimensionMismatch); }
    if shard.index.bitWidth != head.index.bitWidth { return Some(BitWidthMismatch); }
    if CalibrationDifference(head.index.calibration, shard.index.calibration) != Same { return Some(MixedCalibration); }
    return None;
  }

  /** Hold probed shards to one shape and add up their rows. */
  method Bind(shards: seq<Stored>) returns (r: Result<u64>)
    ensures r.Ok? <==> Servable(shards)
    ensures r.Ok? ==> r.value == WrappedSum(RowCounts(shards))
    ensures r == Err(EmptyCollection) <==> shards == []
  {
    if shards == [] { return Err(EmptyCollection); }
    var rows: u64 := 0;
    for i := 0 to |shards|
      invariant forall k :: 0 <= k < i ==> AgreeOnShape(shards[0], shards[k])
      invariant rows == WrappedSum(RowCounts(shards[..i]))
    {
      RowCountsStep(shards, i);
      assert shards[i] in shards;
      var disagreement := Disagreement(shards[0], shards[i]);
      if disagreement.Some? { return Err(disagreement.value); }
      rows := AddWrapping(rows, RowCount(shards[i]));
    }
    assert shards[..|shards|] == shards;
    return Ok(rows);
  }

  /** All rows of a shard. */
  function Whole(s: Stored): Run
    requires Sound(s)
  {
    RunAt(s, 0, s.index.rows)
  }

  function Wholes(shards: seq<Stored>): Run
    requires forall s :: s in shards ==> Sound(s)
  {
    if shards == [] then EMPTY_RUN else Wholes(shards[..|shards| - 1]).Then(Whole(shards[|shards| - 1]))
  }

  /** The shards, in order, as one labelled index. */
  function JoinAll(shards: seq<Stored>): Stored
    requires shards != [] && forall s :: s in shards ==> Sound(s)
  {
    Shaped(shards[0], Wholes(shards))
  }

  function WholePlan(s: Stored): ExportPlan
    requires Sound(s)
  {
    ExportPlan(s, 0, RowCount(s))
  }

  function WholePlans(shards: seq<Stored>): (plans: seq<ExportPlan>)
    requires forall s :: s in shards ==> Sound(s)
    ensures |plans| == |shards|
  {
    if shards == [] then [] else WholePlans(shards[..|shards| - 1]) + [WholePlan(shards[|shards| - 1])]
  }

  lemma {:induction false} WholePlansAre(shards: seq<Stored>)
    requires forall s :: s in shards ==> Sound(s)
    ensures forall i :: 0 <= i < |shards| ==> WholePlans(shards)[i] == WholePlan(shards[i])
    ensures forall p :: p in WholePlans(shards) ==> PlanReadable(p) && p.source in shards
    ensures forall s :: s in shards ==> WholePlan(s) in WholePlans(shards)
  {
    if shards != [] {
      var init, last := shards[..|shards| - 1], shards[|shards| - 1];
      assert shards == init + [last];
      WholePlansAre(init);
    }
  }

  lemma {:induction false} WholePlansRun(shards: seq<Stored>)
    requires forall s :: s in shards ==> Sound(s)
    ensures forall p :: p in WholePlans(shards) ==> PlanReadable(p)
    ensures PlansRun(WholePlans(shards)) == Wholes(shards)
  {
    WholePlansAre(shards);
    if shards != [] {
      var init, last := shards[..|shards| - 1], shards[|shards| - 1];
      assert last in shards && forall s :: s in init ==> s in shards;
      WholePlansAre(init);
      WholePlansRun(init);
      PlansNext(WholePlans(init), WholePlan(last));
      ShapedRunIsCut(last, 0, last.index.rows);
    }
  }

  lemma {:induction false} WholesCount(shards: seq<Stored>)
    requires forall s :: s in shards ==> Sound(s)
    ensures Wholes(shards).rows == Sum(RowCounts(shards))
  {
    if shards != [] {
      var counts := RowCounts(shards);
      assert shards[|shards| - 1] in shards;
      assert counts[..|counts| - 1] == RowCounts(shards[..|shards| - 1]);
      WholesCount(shards[..|shards| - 1]);
    }
  }

  lemma WholePlansTransfer(sources: seq<Stored>, expected: nat)
    requires Servable(sources) && forall s :: s in sources ==> Sound(s)
    ensures forall p :: p in WholePlans(sources) ==> PlanReadable(p)
    ensures WholePlans(sources)[0].source == sources[0] && PlansRun(WholePlans(sources)) == Wholes(sources)
    ensures Transferable(expected, WholePlans(sources)) <==> expected == Wholes(sources).rows
  {
    WholePlansAre(sources);
    WholePlansRun(sources);
    var plans := WholePlans(sources);
    assert forall p :: p in plans ==> AgreeOnShape(plans[0].source, p.source);
  }

  lemma WrapDecides(counts: seq<u64>)
    ensures WrappedSum(counts) == Sum(counts) <==> Sum(counts) < U64
  {
    WrappedSumIsRemainder(counts);
  }

  lemma JoinDecides(sources: seq<Stored>)
    requires Servable(sources) && forall s :: s in sources ==> Sound(s)
    ensures WrappedSum(RowCounts(sources)) == Wholes(sources).rows <==> Sum(RowCounts(sources)) < U64
  {
    WholesCount(sources);
    WrapDecides(RowCounts(sources));
  }

  /** Build one index out of every source, in order, on one target. */
  method Join(sources: seq<Stored>) returns (r: Result<Stored>)
    requires forall s :: s in sources ==> Sound(s)
    ensures r.Ok? <==> Servable(sources) && Sum(RowCounts(sources)) < U64
    ensures r.Ok? ==> r.value == JoinAll(sources)
  {
    var bound := Bind(sources);
    if bound.Err? { return Err(bound.error); }
    JoinDecides(sources);
    WholePlansTransfer(sources, bound.value);
    r := ImportRanges(bound.value, WholePlans(sources));
  }

  // ---- Split, then Join ----

  lemma {:induction false} PiecesSound(s: Stored, counts: seq<u64>)
    requires Sound(s) && Sum(counts) <= s.index.rows
    ensures forall p :: p in Pieces(s, counts) ==> Sound(p) && AgreeOnShape(s, p)
  {
    if counts != [] {
      PiecesSound(s, counts[..|counts| - 1]);
      assert Sum(counts[..|counts| - 1]) + counts[|counts| - 1] == Sum(counts);
    }
  }

  lemma WholeOfCut(s: Stored, start: nat, count: nat)
    requires InRange(s, start, count)
    ensures Whole(Cut(s, start, count)) == RunAt(s, start, count)
  {
    WholeSlice(Cut(s, start, count));
  }

  lemma CutsJoin(s: Stored, m: nat, n: nat)
    requires InRange(s, 0, m + n)
    ensures RunAt(s, 0, m).Then(Whole(Cut(s, m, n))) == RunAt(s, 0, m + n)
  {
    WholeOfCut(s, m, n);
    RunsJoin(s, 0, m, n);
  }

  lemma WholesNext(shards: seq<Stored>, s: Stored)
    requires Sound(s) && forall x :: x in shards ==> Sound(x)
    ensures forall x :: x in shards + [s] ==> Sound(x)
    ensures Wholes(shards + [s]) == Wholes(shards).Then(Whole(s))
  {
    assert (shards + [s])[..|shards|] == shards;
  }

  lemma PiecesStep(s: Stored, counts: seq<u64>, done: nat, last: nat)
    requires Sound(s) && Sum(counts) <= s.index.rows && counts != []
    requires done == Sum(counts[..|counts| - 1]) && last == counts[|counts| - 1]
    ensures done + last == Sum(counts) && InRange(s, 0, done + last)
    ensures Pieces(s, counts) == Pieces(s, counts[..|counts| - 1]) + [Cut(s, done, last)]
  {
  }

  /** The pieces, end to end, are the first `n` rows of the source. */
  ghost predicate Spell(pieces: seq<Stored>, s: Stored, n: nat) {
    InRange(s, 0, n) && (forall p :: p in pieces ==> Sound(p)) && Wholes(pieces) == RunAt(s, 0, n)
  }

  lemma SpellOn(pieces: seq<Stored>, s: Stored, done: nat, last: nat, all: seq<Stored>, n: nat)
    requires InRange(s, 0, n) && n == done + last && Spell(pieces, s, done)
    requires all == pieces + [Cut(s, done, last)]
    ensures Spell(all, s, n)
  {
    WholesNext(pieces, Cut(s, done, last));
    CutsJoin(s, done, last);
  }

  lemma NoneSpell(s: Stored)
    requires Sound(s)
    ensures Spell([], s, 0)
  {
    ShapedRunIsCut(s, 0, 0);
  }

  lemma {:induction false} PiecesSpell(s: Stored, counts: seq<u64>)
    requires Sound(s) && Sum(counts) <= s.index.rows
    ensures Spell(Pieces(s, counts), s, Sum(counts))
  {
    if counts == [] {
      NoneSpell(s);
    } else {
      InitFits(counts, s.index.rows);
      PiecesSpell(s, counts[..|counts| - 1]);
      NextSpells(s, counts);
    }
  }

  lemma InitFits(counts: seq<u64>, rows: nat)
    requires counts != [] && Sum(counts) <= rows
    ensures Sum(counts[..|counts| - 1]) <= rows
  {
  }

  lemma NextSpells(s: Stored, counts: seq<u64>)
    requires Sound(s) && Sum(counts) <= s.index.rows && counts != [] && Sum(counts[..|counts| - 1]) <= s.index.rows
    requires Spell(Pieces(s, counts[..|counts| - 1]), s, Sum(counts[..|counts| - 1]))
    ensures Spell(Pieces(s, counts), s, Sum(counts))
  {
    var init, last := counts[..|counts| - 1], counts[|counts| - 1];
    PiecesStep(s, counts, Sum(init), last);
    SpellOn(Pieces(s, init), s, Sum(init), last, Pieces(s, counts), Sum(counts));
  }

  /** However a source is cut, its pieces in order are its rows. */
  lemma PiecesSpellSource(s: Stored, counts: seq<u64>)
    requires Sound(s) && Sum(counts) <= s.index.rows
    ensures forall p :: p in Pieces(s, counts) ==> Sound(p)
    ensures Wholes(Pieces(s, counts)) == RunAt(s, 0, Sum(counts))
  {
    PiecesSpell(s, counts);
  }

  /** The index a source becomes by being split and joined again: the same
      codes, scales and calibration, and its own labels or its slots. */
  lemma SplitThenJoinRestores(s: Stored, counts: seq<u64>)
    requires Sound(s) && counts != [] && Sum(counts) == s.index.rows
    ensures forall p :: p in Pieces(s, counts) ==> Sound(p)
    ensures JoinAll(Pieces(s, counts)) == Stored(s.index, Some(LabelSlice(s, 0, s.index.rows)))
    ensures Servable(Pieces(s, counts)) && Sum(RowCounts(Pieces(s, counts))) == s.index.rows
    ensures match s.labels
            case Some(table) => LabelSlice(s, 0, s.index.rows) == table
            case None => forall i :: 0 <= i < s.index.rows ==> LabelSlice(s, 0, s.index.rows)[i] == i
  {
    PiecesSound(s, counts);
    PiecesSpellSource(s, counts);
    WholeSlice(s);
    var pieces := Pieces(s, counts);
    assert pieces[0] in pieces;
    WholesCount(pieces);
  }
}
