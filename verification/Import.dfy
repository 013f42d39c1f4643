/** Assembling an index out of streamed blocks, only if it gets exactly the
    rows it was promised. */
module Import {
  import opened Float32
  import opened Ranking
  import opened Rows
  import opened Transfer

  predicate SameShape(a: RowBlock, b: RowBlock) {
    a.dim == b.dim && a.bitWidth == b.bitWidth && a.calibration == b.calibration
  }

  predicate Aligned(b: RowBlock) {
    |b.scales| == b.rows && |b.labels| == b.rows
  }

  /** Why a block is refused after `accepted`, in the order of the checks. */
  function Refusal(accepted: seq<RowBlock>, b: RowBlock, expected: nat): Option<Error> {
    if accepted != [] && b.dim != accepted[0].dim then Some(DimensionMismatch)
    else if accepted != [] && b.bitWidth != accepted[0].bitWidth then Some(BitWidthMismatch)
    else if accepted != [] && CalibrationDifference(accepted[0].calibration, b.calibration) != Same then
      Some(MixedCalibration)
    else if !Aligned(b) then Some(RowCountMismatch)
    else if expected < Gather(accepted).rows + b.rows then Some(RowCountMismatch)
    else None
  }

  function Parts(blocks: seq<RowBlock>): Result<Index>
    requires blocks != []
  {
    var run := Gather(blocks);
    FromParts(blocks[0].dim, blocks[0].bitWidth, run.rows, run.packed, run.scales, blocks[0].calibration)
  }

  /** The streams an import accepts: one shape, aligned blocks, the exact count. */
  predicate Importable(expected: nat, blocks: seq<RowBlock>) {
    && blocks != []
    && (forall b :: b in blocks ==> SameShape(blocks[0], b) && Aligned(b))
    && Gather(blocks).rows == expected
    && Parts(blocks).Ok?
  }

  function Imported(expected: nat, blocks: seq<RowBlock>): Stored
    requires Importable(expected, blocks)
  {
    Stored(Parts(blocks).value, Some(Gather(blocks).labels))
  }

  /** The streams an import accepts, told bit by bit: one shape throughout, one
      scale and one label a row, the promised count, and whole rows of codes. */
  lemma ImportableIs(expected: nat, blocks: seq<RowBlock>)
    ensures Importable(expected, blocks) <==>
              && blocks != []
              && (forall b :: b in blocks ==>
                    && b.dim == blocks[0].dim && b.bitWidth == blocks[0].bitWidth
                    && b.calibration == blocks[0].calibration && |b.scales| == |b.labels| == b.rows)
              && var run, head := Gather(blocks), blocks[0];
                 && run.rows == expected == |run.scales|
                 && 0 < head.dim && head.dim % 8 == 0 && 2 <= head.bitWidth <= 4
                 && 8 * |run.packed| == run.rows * (head.bitWidth * head.dim)
                 && |head.calibration.shift| == |head.calibration.scale|
                 && (|head.calibration.shift| == 0 || |head.calibration.shift| == head.dim)
    ensures Importable(expected, blocks) ==>
              var run, head, s := Gather(blocks), blocks[0], Imported(expected, blocks);
              && s.labels == Some(run.labels)
              && s.index == Index(head.dim, head.bitWidth, run.rows, run.packed, run.scales, head.calibration)
  {
    if blocks != [] {
      var run, head := Gather(blocks), blocks[0];
      PartsAre(head.dim, head.bitWidth, run.rows, run.packed, run.scales, head.calibration);
    }
  }

  /** A block is refused for the first of these that holds. */
  lemma RefusalIs(accepted: seq<RowBlock>, b: RowBlock, expected: nat)
    ensures var r := Refusal(accepted, b, expected);
            var follows := accepted == [] || (b.dim == accepted[0].dim && b.bitWidth == accepted[0].bitWidth
                                              && b.calibration == accepted[0].calibration);
            && (r == None <==>
                  follows && |b.scales| == |b.labels| == b.rows && Gather(accepted).rows + b.rows <= expected)
            && (r == Some(DimensionMismatch) <==> accepted != [] && b.dim != accepted[0].dim)
            && (r == Some(BitWidthMismatch) <==>
                  accepted != [] && b.dim == accepted[0].dim && b.bitWidth != accepted[0].bitWidth)
            && (follows && r != None ==> r == Some(RowCountMismatch))
            && (r == Some(MixedCalibration) ==> !follows)
  {
    if accepted != [] { DifferenceIsExact(accepted[0].calibration, b.calibration); }
  }

  class ImportBuilder {
    const expectedRows: u64
    var head: Option<RowBlock>
    var blocks: nat
    var rows: nat
    var packed: seq<byte>
    var scales: seq<Bits>
    var labels: seq<u64>
    ghost var accepted: seq<RowBlock>

    ghost predicate Valid()
      reads this
    {
      && Gather(accepted) == Run(rows, packed, scales, labels)
      && rows <= expectedRows && blocks == |accepted|
      && (head.None? <==> accepted == [])
      && (head.Some? ==> SameShape(accepted[0], head.value))
      && (forall b :: b in accepted ==> SameShape(accepted[0], b) && Aligned(b))
    }

    constructor (expected: u64)
      ensures Valid() && accepted == [] && expectedRows == expected
    {
      expectedRows := expected;
      head, blocks, rows := None, 0, 0;
      packed, scales, labels := [], [], [];
      accepted := [];
    }

    method Push(b: RowBlock) returns (refused: Option<Error>)
      requires Valid()
      modifies this
      ensures Valid()
      ensures refused == Refusal(old(accepted), b, expectedRows)
      ensures accepted == if refused.None? then old(accepted) + [b] else old(accepted)
    {
      if head.Some? {
        if b.dim != head.value.dim { return Some(DimensionMismatch); }
        if b.bitWidth != head.value.bitWidth { return Some(BitWidthMismatch); }
        if CalibrationDifference(head.value.calibration, b.calibration) != Same { return Some(MixedCalibration); }
        DifferenceIsExact(head.value.calibration, b.calibration);
      }
      if |b.scales| != b.rows || |b.labels| != b.rows { return Some(RowCountMismatch); }
      var nextRows := rows + b.rows;
      if U64 <= nextRows { return Some(RowCountMismatch); }
      if expectedRows < nextRows { return Some(RowCountMismatch); }
      GatherConcat(accepted, [b]);
      GatherOne(b);
      if head.None? {
        head := Some(RowBlock(b.dim, b.bitWidth, 0, [], [], b.calibration, []));
      }
      rows := nextRows;
      blocks := blocks + 1;
      packed := packed + b.packed;
      scales := scales + b.scales;
      labels := labels + b.labels;
      accepted := accepted + [b];
      return None;
    }

    method Finish() returns (r: Result<Stored>)
      requires Valid()
      ensures r.Ok? <==> Importable(expectedRows, accepted)
      ensures r.Ok? ==> r.value == Imported(expectedRows, accepted)
    {
      if head.None? { return Err(RowCountMismatch); }
      if rows != expectedRows { return Err(RowCountMismatch); }
      var index := FromParts(head.value.dim, head.value.bitWidth, rows, packed, scales, head.value.calibration);
      assert index == Parts(accepted);
      match index {
        case Ok(x) => return Ok(Stored(x, Some(labels)));
        case Err(e) => return Err(e);
      }
    }
  }

  lemma RefusalSpoils(blocks: seq<RowBlock>, n: nat, expected: nat)
    requires n < |blocks| && Refusal(blocks[..n], blocks[n], expected).Some?
    ensures !Importable(expected, blocks)
  {
    if Importable(expected, blocks) {
      assert blocks[n] in blocks;
      DifferenceIsExact(blocks[0].calibration, blocks[n].calibration);
      assert blocks == blocks[..n] + ([blocks[n]] + blocks[n + 1..]);
      GatherConcat(blocks[..n], [blocks[n]] + blocks[n + 1..]);
      GatherConcat([blocks[n]], blocks[n + 1..]);
      GatherOne(blocks[n]);
    }
  }

  /** The import stream: every block in turn, then the exact-count check. */
  method ImportRows(expected: u64, blocks: seq<RowBlock>) returns (r: Result<Stored>)
    ensures r.Ok? <==> Importable(expected, blocks)
    ensures r.Ok? ==> r.value == Imported(expected, blocks)
  {
    var builder := new ImportBuilder(expected);
    for n := 0 to |blocks|
      invariant builder.Valid() && builder.accepted == blocks[..n] && builder.expectedRows == expected
    {
      var refused := builder.Push(blocks[n]);
      if refused.Some? {
        RefusalSpoils(blocks, n, expected);
        return Err(refused.value);
      }
      assert blocks[..n + 1] == blocks[..n] + [blocks[n]];
    }
    assert blocks[..|blocks|] == blocks;
    r := builder.Finish();
  }
}
