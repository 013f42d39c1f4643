/** Exporting encoded rows: which rows a request names, and the frames they
    travel in. */
module Transfer {
  import opened Float32
  import opened Ranking
  import opened Rows

  const MAX_EXPORT_FRAME_BYTES: nat := 2 * 1024 * 1024

  // ---- Export ----

  /** The rows a request names; a count of 0 means "to the end". */
  function ExportRange(len: nat, start: u64, count: u64): Result<(nat, nat)> {
    if len < start then Err(RowCountMismatch)
    else
      var rows := if count == 0 then len - start else count;
      if U64 <= start + rows || len < start + rows then Err(RowCountMismatch)
      else Ok((start, rows))
  }

  function BlockOf(s: Stored, start: nat, count: nat): (b: RowBlock)
    requires InRange(s, start, count)
    ensures Carries(b, s)
  {
    var x := s.index;
    RowBlock(x.dim, x.bitWidth, count, PackedSlice(x, start, count), x.scales[start..start + count],
             x.calibration, LabelSlice(s, start, count))
  }

  function ExportBlock(s: Stored, start: u64, count: u64): Result<RowBlock>
    requires Sound(s)
  {
    match ExportRange(s.index.rows, start, count)
    case Err(e) => Err(e)
    case Ok((first, rows)) => Ok(BlockOf(s, first, rows))
  }

  /** The block has the source's shape and calibration and is aligned. */
  predicate Carries(b: RowBlock, s: Stored) {
    && b.dim == s.index.dim && b.bitWidth == s.index.bitWidth && b.calibration == s.index.calibration
    && |b.scales| == b.rows && |b.labels| == b.rows
    && |b.packed| == Bytes(RowWidth(b.dim, b.bitWidth), b.rows)
  }

  function RowsPerFrame(dim: nat, bitWidth: nat): (n: nat)
    ensures 1 <= n
  {
    var perRow := RowWidth(dim, bitWidth) + 12;
    var budget := if MAX_EXPORT_FRAME_BYTES < 8 * dim then 0 else MAX_EXPORT_FRAME_BYTES - 8 * dim;
    if budget / perRow < 1 then 1 else budget / perRow
  }

  /** One row more would not fit, so no frame is cut short of need. */
  lemma FramesAreFull(dim: nat, bitWidth: nat)
    ensures 2_097_152 < (RowsPerFrame(dim, bitWidth) + 1) * (RowWidth(dim, bitWidth) + 12) + 8 * dim
  {
    var perRow := RowWidth(dim, bitWidth) + 12;
    if 8 * dim <= MAX_EXPORT_FRAME_BYTES {
      var budget := MAX_EXPORT_FRAME_BYTES - 8 * dim;
      OneMoreOverflows(budget, perRow);
    }
  }

  lemma OneMoreOverflows(budget: nat, perRow: nat)
    requires 0 < perRow
    ensures budget < (budget / perRow + 1) * perRow
    ensures budget / perRow < 1 ==> budget < 2 * perRow
  {
  }

  /** Codes, scales, labels and the calibration pair of a frame fit in 2 MiB, or
      it holds one row. */
  lemma FrameFits(b: RowBlock)
    requires |b.packed| == Bytes(RowWidth(b.dim, b.bitWidth), b.rows) && |b.scales| == |b.labels| == b.rows
    requires b.rows <= RowsPerFrame(b.dim, b.bitWidth)
    ensures |b.packed| + 4 * |b.scales| + 8 * |b.labels| + 8 * b.dim <= 2_097_152 || b.rows <= 1
  {
    var width := RowWidth(b.dim, b.bitWidth);
    if 1 < b.rows {
      var budget := MAX_EXPORT_FRAME_BYTES - 8 * b.dim;
      RowBudget(width, b.rows, budget);
    }
  }

  lemma {:induction false} WiderRows(width: nat, n: nat)
    ensures Bytes(width + 12, n) == Bytes(width, n) + 12 * n
  {
    if n > 0 { WiderRows(width, n - 1); }
  }

  lemma QuotientFits(budget: nat, perRow: nat)
    requires 0 < perRow
    ensures (budget / perRow) * perRow <= budget
  {
  }

  lemma RowsFit(perRow: nat, n: nat, most: nat, budget: nat)
    requires n <= most && most * perRow <= budget
    ensures Bytes(perRow, n) <= budget
  {
    BytesMonotone(perRow, n, most);
    BytesIsProduct(perRow, most);
  }

  lemma RowBudget(width: nat, n: nat, budget: nat)
    requires n <= budget / (width + 12)
    ensures Bytes(width, n) + 12 * n <= budget
  {
    QuotientFits(budget, width + 12);
    RowsFit(width + 12, n, budget / (width + 12), budget);
    WiderRows(width, n);
  }

  /** A run of rows: what a sequence of blocks adds up to. */
  datatype Run = Run(rows: nat, packed: seq<byte>, scales: seq<Bits>, labels: seq<u64>)
  {
    function Then(next: Run): Run {
      Run(rows + next.rows, packed + next.packed, scales + next.scales, labels + next.labels)
    }
  }

  /** Codes, scales and labels agree on how many rows there are. */
  predicate AlignedRun(width: nat, run: Run) {
    |run.packed| == Bytes(width, run.rows) && |run.scales| == |run.labels| == run.rows
  }

  lemma AlignedThen(width: nat, a: Run, b: Run)
    requires AlignedRun(width, a) && AlignedRun(width, b)
    ensures AlignedRun(width, a.Then(b))
  {
    BytesAdd(width, a.rows, b.rows);
  }

  const EMPTY_RUN: Run := Run(0, [], [], [])

  function RunOf(b: RowBlock): Run {
    Run(b.rows, b.packed, b.scales, b.labels)
  }

  function Gather(blocks: seq<RowBlock>): Run {
    if blocks == [] then EMPTY_RUN else Gather(blocks[..|blocks| - 1]).Then(RunOf(blocks[|blocks| - 1]))
  }

  lemma ThenAssociates(a: Run, b: Run, c: Run)
    ensures a.Then(b).Then(c) == a.Then(b.Then(c))
    ensures a.Then(EMPTY_RUN) == a && EMPTY_RUN.Then(a) == a
  {
  }

  lemma GatherOne(b: RowBlock)
    ensures Gather([b]) == RunOf(b)
  {
    assert [b][..0] == [];
    ThenAssociates(RunOf(b), EMPTY_RUN, EMPTY_RUN);
  }

  lemma {:induction false} GatherConcat(a: seq<RowBlock>, b: seq<RowBlock>)
    ensures Gather(a + b) == Gather(a).Then(Gather(b))
  {
    if b == [] {
      assert a + b == a;
      ThenAssociates(Gather(a), EMPTY_RUN, EMPTY_RUN);
    } else {
      var init, last := b[..|b| - 1], b[|b| - 1];
      assert (a + b)[..|a + b| - 1] == a + init;
      GatherConcat(a, init);
      ThenAssociates(Gather(a), Gather(init), RunOf(last));
    }
  }

  function RunAt(s: Stored, start: nat, count: nat): Run
    requires InRange(s, start, count)
  {
    Run(count, PackedSlice(s.index, start, count), s.index.scales[start..start + count], LabelSlice(s, start, count))
  }

  lemma RunsJoin(s: Stored, start: nat, m: nat, n: nat)
    requires InRange(s, start, m + n)
    ensures RunAt(s, start, m).Then(RunAt(s, start + m, n)) == RunAt(s, start, m + n)
  {
    SlicesJoin(s, start, m, n);
  }

  /** The blocks, end to end, are rows `start .. start + count` of the source. */
  ghost predicate Spells(blocks: seq<RowBlock>, s: Stored, start: nat, count: nat) {
    && InRange(s, start, count)
    && (forall b :: b in blocks ==> Carries(b, s))
    && Gather(blocks) == RunAt(s, start, count)
  }

  lemma SpellsNext(blocks: seq<RowBlock>, s: Stored, start: nat, done: nat, count: nat)
    requires Spells(blocks, s, start, done) && InRange(s, start, done + count)
    ensures Spells(blocks + [BlockOf(s, start + done, count)], s, start, done + count)
  {
    GatherConcat(blocks, [BlockOf(s, start + done, count)]);
    GatherOne(BlockOf(s, start + done, count));
    RunsJoin(s, start, done, count);
  }

  /** Small enough for one message, or a single row. */
  ghost predicate GoodFrame(b: RowBlock) {
    |b.packed| + 4 * |b.scales| + 8 * |b.labels| + 8 * b.dim <= 2_097_152 || b.rows <= 1
  }

  lemma OneBlockSpells(s: Stored, start: nat, count: nat)
    requires InRange(s, start, count)
    ensures Spells([BlockOf(s, start, count)], s, start, count)
  {
    var b := BlockOf(s, start, count);
    GatherOne(b);
    assert RunOf(b) == RunAt(s, start, count);
  }

  lemma RangeIs(s: Stored, start: u64, count: u64)
    requires Sound(s)
    ensures var range := ExportRange(s.index.rows, start, count);
            && (range.Ok? <==> start <= s.index.rows && (count == 0 || start + count <= s.index.rows))
            && (range.Ok? ==> range.value == (start, if count == 0 then s.index.rows - start else count)
                              && InRange(s, start, range.value.1))
  {
  }

  lemma EmptyExport(s: Stored, first: u64)
    requires Sound(s) && first == s.index.rows
    ensures ExportBlock(s, first, 0) == Ok(BlockOf(s, first, 0)) && GoodFrame(BlockOf(s, first, 0))
    ensures Spells([BlockOf(s, first, 0)], s, first, 0)
  {
    OneBlockSpells(s, first, 0);
  }

  /** What the frames of `rows` rows from `start` on are. */
  lemma FramesAre(frames: seq<RowBlock>, s: Stored, start: nat, rows: nat)
    requires Spells(frames, s, start, rows) && forall b :: b in frames ==> GoodFrame(b)
    ensures Gather(frames) == RunAt(s, start, rows)
    ensures forall b :: b in frames ==>
              && Carries(b, s) && b.dim == s.index.dim && b.bitWidth == s.index.bitWidth
              && b.calibration == s.index.calibration
              && |b.scales| == |b.labels| == b.rows
              && (|b.packed| + 4 * |b.scales| + 8 * |b.labels| + 8 * b.dim <= 2_097_152 || b.rows <= 1)
  {
  }

  /** A zero-row range is one empty block; any other is cut into frames. */
  method ExportRows(s: Stored, start: u64, count: u64) returns (r: Result<seq<RowBlock>>)
    requires Sound(s)
    ensures r.Ok? <==> start <= s.index.rows && (count == 0 || start + count <= s.index.rows)
    ensures r.Ok? ==>
              var rows := if count == 0 then s.index.rows - start else count;
              && r.value != [] && Gather(r.value) == RunAt(s, start, rows)
              && forall b :: b in r.value ==>
                   && Carries(b, s) && b.dim == s.index.dim && b.bitWidth == s.index.bitWidth
                   && b.calibration == s.index.calibration
                   && |b.scales| == |b.labels| == b.rows && (0 < rows ==> 0 < b.rows)
                   && (|b.packed| + 4 * |b.scales| + 8 * |b.labels| + 8 * b.dim <= 2_097_152 || b.rows <= 1)
  {
    var range := ExportRange(s.index.rows, start, count);
    RangeIs(s, start, count);
    if range.Err? { return Err(range.error); }
    var (first, rows) := range.value;
    var frames := ExportBlocks(s, first, rows);
    FramesAre(frames, s, first, rows);
    return Ok(frames);
  }

  method ExportBlocks(s: Stored, first: u64, rows: nat) returns (blocks: seq<RowBlock>)
    requires InRange(s, first, rows) && (rows == 0 ==> first == s.index.rows)
    ensures blocks != [] && Spells(blocks, s, first, rows)
    ensures forall b :: b in blocks ==> GoodFrame(b) && (0 < rows ==> 0 < b.rows)
  {
    if rows == 0 {
      var block := ExportBlock(s, first, 0);
      EmptyExport(s, first);
      return [block.value];
    }
    blocks := ExportFrames(s, first, rows);
  }

  /** The frames sent so far. */
  ghost predicate Frames(frames: seq<RowBlock>, s: Stored, first: nat, done: nat) {
    && Spells(frames, s, first, done) && (0 < done ==> frames != [])
    && forall b :: b in frames ==> GoodFrame(b) && 0 < b.rows
  }

  /** Frames of as many rows as allowed. */
  ghost predicate Full(frames: seq<RowBlock>, rows: nat) {
    forall i :: 0 <= i < |frames| ==> frames[i].rows == rows
  }

  /** The first `done` of `rows` rows are sent, all frames full but perhaps the
      last one of all. */
  ghost predicate Sent(frames: seq<RowBlock>, s: Stored, first: nat, done: nat, rows: nat, perFrame: nat) {
    && Frames(frames, s, first, done)
    && Full(if done < rows || frames == [] then frames else frames[..|frames| - 1], perFrame)
  }

  lemma NothingSent(s: Stored, first: nat, rows: nat, perFrame: nat)
    requires InRange(s, first, rows)
    ensures Sent([], s, first, 0, rows, perFrame)
  {
  }

  lemma SentNext(frames: seq<RowBlock>, b: RowBlock, s: Stored, first: nat, done: nat, n: nat, rows: nat, perFrame: nat)
    requires Sent(frames, s, first, done, rows, perFrame) && InRange(s, first, done + n) && 0 < n && done + n <= rows
    requires b == BlockOf(s, first + done, n) && GoodFrame(b) && b.rows == n && (done + n < rows ==> n == perFrame)
    ensures Sent(frames + [b], s, first, done + n, rows, perFrame)
  {
    FramesNext(frames, b, s, first, done, n);
    assert (frames + [b])[..|frames + [b]| - 1] == frames;
  }

  lemma FrameInRange(s: Stored, first: nat, rows: nat, offset: nat, n: nat)
    requires InRange(s, first, rows) && offset + n <= rows
    ensures InRange(s, first + offset, n) && InRange(s, first, offset + n) && first + offset + n < U64
  {
  }

  lemma FramesNext(frames: seq<RowBlock>, b: RowBlock, s: Stored, first: nat, done: nat, n: nat)
    requires Frames(frames, s, first, done) && InRange(s, first, done + n) && 0 < n
    requires b == BlockOf(s, first + done, n) && GoodFrame(b) && b.rows == n
    ensures Frames(frames + [b], s, first, done + n)
  {
    SpellsNext(frames, s, first, done, n);
  }

  /** Frames of up to `n` rows are small enough, or hold one row. */
  ghost predicate Fits(s: Stored, n: nat) {
    forall start: nat, count: nat :: InRange(s, start, count) && count <= n ==> GoodFrame(BlockOf(s, start, count))
  }

  lemma RowsPerFrameFits(s: Stored)
    requires Sound(s)
    ensures Fits(s, RowsPerFrame(s.index.dim, s.index.bitWidth))
  {
    forall start: nat, count: nat |
      InRange(s, start, count) && count <= RowsPerFrame(s.index.dim, s.index.bitWidth)
      ensures GoodFrame(BlockOf(s, start, count))
    {
      FrameFits(BlockOf(s, start, count));
    }
  }

  /** The range in frames, every one but the last of as many rows as allowed. */
  method ExportFrames(s: Stored, first: nat, rows: nat) returns (frames: seq<RowBlock>)
    requires InRange(s, first, rows) && 0 < rows
    ensures frames != [] && Spells(frames, s, first, rows)
    ensures forall b :: b in frames ==> GoodFrame(b) && 0 < b.rows
    ensures forall i :: 0 <= i < |frames| - 1 ==> frames[i].rows == RowsPerFrame(s.index.dim, s.index.bitWidth)
  {
    RowsPerFrameFits(s);
    frames := CutFrames(s, first, rows, RowsPerFrame(s.index.dim, s.index.bitWidth));
  }

  /** The offset loop. */
  method CutFrames(s: Stored, first: nat, rows: nat, rowsPerFrame: nat) returns (frames: seq<RowBlock>)
    requires InRange(s, first, rows) && 0 < rows && 0 < rowsPerFrame && Fits(s, rowsPerFrame)
    ensures Sent(frames, s, first, rows, rows, rowsPerFrame)
  {
    frames := [];
    var offset := 0;
    NothingSent(s, first, rows, rowsPerFrame);
    while offset < rows
      invariant offset <= rows && Sent(frames, s, first, offset, rows, rowsPerFrame)
    {
      var n := if rowsPerFrame < rows - offset then rowsPerFrame else rows - offset;
      frames := CutFrame(frames, s, first, rows, offset, n, rowsPerFrame);
      offset := offset + n;
    }
  }

  /** One more frame behind those already sent. */
  method CutFrame(frames: seq<RowBlock>, s: Stored, first: nat, rows: nat, offset: nat, n: nat,
                  ghost rowsPerFrame: nat)
    returns (more: seq<RowBlock>)
    requires InRange(s, first, rows) && 0 < n <= rowsPerFrame && offset + n <= rows && Fits(s, rowsPerFrame)
    requires Sent(frames, s, first, offset, rows, rowsPerFrame) && (offset + n < rows ==> n == rowsPerFrame)
    ensures Sent(more, s, first, offset + n, rows, rowsPerFrame)
  {
    FrameInRange(s, first, rows, offset, n);
    var block := ExportFrame(s, first + offset, n, rowsPerFrame);
    SentNext(frames, block, s, first, offset, n, rows, rowsPerFrame);
    more := frames + [block];
  }

  /** One turn of the export loop. Its count is never the 0 that would mean
      "to the end". */
  method ExportFrame(s: Stored, start: u64, n: u64, ghost rowsPerFrame: nat) returns (b: RowBlock)
    requires InRange(s, start, n) && 0 < n <= rowsPerFrame && Fits(s, rowsPerFrame)
    ensures b == BlockOf(s, start, n) && GoodFrame(b) && b.rows == n
  {
    var block := ExportBlock(s, start, n);
    b := block.value;
  }
}
