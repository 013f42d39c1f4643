/** Encoded rows: what an index stores, how a block carries a run of rows, and
    when two calibration pairs are the same pair. */
module Rows {
  import opened Float32
  import opened Ranking

  const U64: nat := 0x1_0000_0000_0000_0000

  type u64 = x: int | 0 <= x < 0x1_0000_0000_0000_0000
  type byte = x: int | 0 <= x < 256

  datatype Error =
    | RowCountMismatch | DimensionMismatch | BitWidthMismatch | MixedCalibration | BadParts | EmptyCollection

  datatype Result<T> = Ok(value: T) | Err(error: Error)

  datatype Calibration = Calibration(shift: seq<Bits>, scale: seq<Bits>)

  /** `dim` is 0 while it is unbound. Rows are contiguous in `packed`. */
  datatype Index = Index(
    dim: nat, bitWidth: nat, rows: nat, packed: seq<byte>, scales: seq<Bits>, calibration: Calibration)

  /** An index in a node's registry, with its label table if it has one. */
  datatype Stored = Stored(index: Index, labels: Option<seq<u64>>)

  datatype RowBlock = RowBlock(
    dim: nat, bitWidth: nat, rows: nat, packed: seq<byte>, scales: seq<Bits>, calibration: Calibration,
    labels: seq<u64>)

  /** Bytes taken by `n` rows of `width` bytes each. */
  function Bytes(width: nat, n: nat): nat {
    if n == 0 then 0 else width + Bytes(width, n - 1)
  }

  lemma {:induction false} BytesIsProduct(width: nat, n: nat)
    ensures Bytes(width, n) == n * width
  {
    if n > 0 {
      BytesIsProduct(width, n - 1);
      assert n * width == (n - 1) * width + width;
    }
  }

  lemma {:induction false} BytesMonotone(width: nat, m: nat, n: nat)
    requires m <= n
    ensures Bytes(width, m) <= Bytes(width, n)
  {
    if m < n { BytesMonotone(width, m, n - 1); }
  }

  lemma {:induction false} BytesAdd(width: nat, m: nat, n: nat)
    ensures Bytes(width, m + n) == Bytes(width, m) + Bytes(width, n)
  {
    if n > 0 { BytesAdd(width, m, n - 1); }
  }

  function RowWidth(dim: nat, bitWidth: nat): nat {
    Bytes(dim / 8, bitWidth)
  }

  /** The shapes the engine builds an index from. */
  predicate GoodParts(dim: nat, bitWidth: nat, rows: nat, packed: seq<byte>, scales: seq<Bits>, c: Calibration) {
    && 0 < dim && dim % 8 == 0 && 2 <= bitWidth <= 4
    && |packed| == Bytes(RowWidth(dim, bitWidth), rows)
    && |scales| == rows
    && |c.shift| == |c.scale| && (c.shift == [] || |c.shift| == dim)
  }

  function FromParts(
    dim: nat, bitWidth: nat, rows: nat, packed: seq<byte>, scales: seq<Bits>, c: Calibration): Result<Index>
  {
    if GoodParts(dim, bitWidth, rows, packed, scales, c) then Ok(Index(dim, bitWidth, rows, packed, scales, c))
    else Err(BadParts)
  }

  /** An index is built exactly from whole rows of `bitWidth` bits a coordinate,
      2 to 4, a dim that is a multiple of 8, one scale a row, and no calibration
      or one pair a coordinate. */
  lemma PartsAre(dim: nat, bitWidth: nat, rows: nat, packed: seq<byte>, scales: seq<Bits>, c: Calibration)
    ensures FromParts(dim, bitWidth, rows, packed, scales, c).Ok? <==>
              && 0 < dim && dim % 8 == 0 && 2 <= bitWidth <= 4
              && 8 * |packed| == rows * (bitWidth * dim) && |scales| == rows
              && |c.shift| == |c.scale| && (|c.shift| == 0 || |c.shift| == dim)
    ensures FromParts(dim, bitWidth, rows, packed, scales, c).Ok? ==>
              FromParts(dim, bitWidth, rows, packed, scales, c).value
              == Index(dim, bitWidth, rows, packed, scales, c)
  {
    if dim % 8 == 0 {
      var width := RowWidth(dim, bitWidth);
      BytesIsProduct(dim / 8, bitWidth);
      BytesIsProduct(width, rows);
      assert 8 * width == bitWidth * dim;
      assert 8 * (rows * width) == rows * (8 * width);
    }
  }

  /** An index whose dim is bound, with one label per row if it has labels. */
  predicate Sound(s: Stored) {
    var x := s.index;
    && GoodParts(x.dim, x.bitWidth, x.rows, x.packed, x.scales, x.calibration)
    && x.rows < U64 && x.dim < 0x1_0000_0000
    && (s.labels.Some? ==> |s.labels.value| == x.rows)
  }

  lemma SoundIs(s: Stored)
    ensures Sound(s) <==>
              && FromParts(s.index.dim, s.index.bitWidth, s.index.rows, s.index.packed, s.index.scales,
                           s.index.calibration) == Ok(s.index)
              && s.index.rows < 0x1_0000_0000_0000_0000 && s.index.dim < 0x1_0000_0000
              && (s.labels == None || |s.labels.value| == s.index.rows)
  {
    assert s.index == Index(s.index.dim, s.index.bitWidth, s.index.rows, s.index.packed, s.index.scales,
                            s.index.calibration);
  }

  // ---- Runs of rows ----

  function Width(x: Index): nat {
    RowWidth(x.dim, x.bitWidth)
  }

  predicate InRange(s: Stored, start: nat, count: nat) {
    Sound(s) && start + count <= s.index.rows
  }

  function PackedSlice(x: Index, start: nat, count: nat): (r: seq<byte>)
    requires start + count <= x.rows && |x.packed| == Bytes(Width(x), x.rows)
    ensures |r| == Bytes(Width(x), count)
  {
    BytesMonotone(Width(x), start, start + count);
    BytesMonotone(Width(x), start + count, x.rows);
    BytesAdd(Width(x), start, count);
    x.packed[Bytes(Width(x), start)..Bytes(Width(x), start + count)]
  }

  /** A row's label: its own, or its slot when the source has none. */
  function LabelSlice(s: Stored, start: nat, count: nat): (r: seq<u64>)
    requires InRange(s, start, count)
    ensures |r| == count
  {
    match s.labels
    case Some(table) => table[start..start + count]
    case None => seq(count, i requires 0 <= i < count => start + i)
  }

  /** Rows `start .. start + count` of a stored index, as an index of their own. */
  function Cut(s: Stored, start: nat, count: nat): (r: Stored)
    requires InRange(s, start, count)
    ensures Sound(r) && r.index.rows == count
  {
    var x := s.index;
    Stored(Index(x.dim, x.bitWidth, count, PackedSlice(x, start, count), x.scales[start..start + count], x.calibration),
           Some(LabelSlice(s, start, count)))
  }

  lemma SlicesJoin(s: Stored, start: nat, m: nat, n: nat)
    requires InRange(s, start, m + n)
    ensures PackedSlice(s.index, start, m) + PackedSlice(s.index, start + m, n) == PackedSlice(s.index, start, m + n)
    ensures s.index.scales[start..start + m] + s.index.scales[start + m..start + m + n]
         == s.index.scales[start..start + (m + n)]
    ensures LabelSlice(s, start, m) + LabelSlice(s, start + m, n) == LabelSlice(s, start, m + n)
  {
    BytesMonotone(Width(s.index), start, start + m);
    BytesMonotone(Width(s.index), start + m, start + m + n);
    BytesMonotone(Width(s.index), start + m + n, s.index.rows);
  }

  lemma WholeSlice(s: Stored)
    requires Sound(s)
    ensures PackedSlice(s.index, 0, s.index.rows) == s.index.packed
    ensures s.index.scales[0..s.index.rows] == s.index.scales
    ensures s.labels.Some? ==> LabelSlice(s, 0, s.index.rows) == s.labels.value
  {
  }

  // ---- Calibration ----

  datatype Difference = Same | ShiftLength | ScaleLength | ShiftAt(coordinate: nat) | ScaleAt(coordinate: nat)

  /** The first coordinate from `i` on where the bits differ, or the length. */
  function FirstDifference(a: seq<Bits>, b: seq<Bits>, i: nat): nat
    requires |a| == |b| && i <= |a|
    decreases |a| - i
  {
    if i == |a| then i else if a[i] != b[i] then i else FirstDifference(a, b, i + 1)
  }

  function CalibrationDifference(left: Calibration, right: Calibration): Difference {
    if |left.shift| != |right.shift| then ShiftLength
    else if |left.scale| != |right.scale| then ScaleLength
    else
      var shift := FirstDifference(left.shift, right.shift, 0);
      if shift < |left.shift| then ShiftAt(shift)
      else
        var scale := FirstDifference(left.scale, right.scale, 0);
        if scale < |left.scale| then ScaleAt(scale) else Same
  }

  lemma {:induction false} FirstDifferenceIsFirst(a: seq<Bits>, b: seq<Bits>, i: nat)
    requires |a| == |b| && i <= |a|
    ensures i <= FirstDifference(a, b, i) <= |a|
    ensures forall j :: i <= j < FirstDifference(a, b, i) ==> a[j] == b[j]
    ensures FirstDifference(a, b, i) < |a| ==> a[FirstDifference(a, b, i)] != b[FirstDifference(a, b, i)]
    decreases |a| - i
  {
    if i < |a| && a[i] == b[i] { FirstDifferenceIsFirst(a, b, i + 1); }
  }

  /** No difference is reported exactly when the pairs are bit-identical, and a
      reported coordinate is the first that differs. */
  lemma DifferenceIsExact(left: Calibration, right: Calibration)
    ensures CalibrationDifference(left, right) == Same <==> left == right
    ensures match CalibrationDifference(left, right)
            case ShiftAt(i) => |left.shift| == |right.shift| && i < |left.shift|
                               && left.shift[i] != right.shift[i] && left.shift[..i] == right.shift[..i]
            case ScaleAt(i) => left.shift == right.shift && |left.scale| == |right.scale| && i < |left.scale|
                               && left.scale[i] != right.scale[i] && left.scale[..i] == right.scale[..i]
            case ShiftLength => |left.shift| != |right.shift|
            case ScaleLength => |left.scale| != |right.scale|
            case Same => true
  {
    if |left.shift| == |right.shift| && |left.scale| == |right.scale| {
      FirstDifferenceIsFirst(left.shift, right.shift, 0);
      FirstDifferenceIsFirst(left.scale, right.scale, 0);
    }
  }
}
