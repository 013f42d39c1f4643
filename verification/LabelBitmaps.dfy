/** Label filters shipped as bitmap segments: validation and lookup. */
module LabelBitmaps {
  import opened Rows

  datatype LabelBitmap = LabelBitmap(baseLabel: u64, labelCount: u64, bits: seq<bv8>)

  function Bit(b: bv8, n: nat): bool
    requires n < 8
  {
    b & (1 << n) != 0
  }

  /** Bits count from the low end of their byte. */
  lemma BitsCountFromTheLowEnd(b: bv8, n: nat)
    requires n < 8
    ensures var powers: seq<bv8> := [1, 2, 4, 8, 16, 32, 64, 128]; Bit(b, n) <==> b & powers[n] != 0
  {
    if n == 0 {} else if n == 1 {} else if n == 2 {} else if n == 3 {} else if n == 4 {} else if n == 5 {}
    else if n == 6 {} else { assert n == 7; }
  }

  // ---- What a well-formed list is ----

  /** Non-empty, exactly the bytes its labels need, inside u64, and no bit set
      past its last label. */
  ghost predicate ValidSegment(s: LabelBitmap) {
    && 0 < s.labelCount
    && |s.bits| == (s.labelCount + 7) / 8
    && s.baseLabel + s.labelCount < U64
    && ClearFrom(s.bits[|s.bits| - 1], s.labelCount - 8 * (|s.bits| - 1))
  }

  predicate ClearFrom(b: bv8, used: nat) {
    forall n: nat :: used <= n < 8 ==> !Bit(b, n)
  }

  ghost predicate Ordered(bitmaps: seq<LabelBitmap>) {
    forall i, j :: 0 <= i < j < |bitmaps| ==>
      bitmaps[i].baseLabel + bitmaps[i].labelCount <= bitmaps[j].baseLabel
  }

  ghost predicate ValidList(bitmaps: seq<LabelBitmap>) {
    (forall i :: 0 <= i < |bitmaps| ==> ValidSegment(bitmaps[i])) && Ordered(bitmaps)
  }

  /** A list is well-formed exactly when every segment has labels, as many bytes
      as they take, an end inside u64 and a last byte without a bit past its last
      label, and each starts at or after the end of those before it. */
  lemma ValidListIs(bitmaps: seq<LabelBitmap>)
    ensures ValidList(bitmaps) <==>
              && (forall s :: s in bitmaps ==>
                    && 0 < s.labelCount && s.baseLabel + s.labelCount < 0x1_0000_0000_0000_0000
                    && 8 * |s.bits| - 8 < s.labelCount <= 8 * |s.bits|
                    && ClearFrom(s.bits[|s.bits| - 1], s.labelCount - (8 * |s.bits| - 8)))
              && forall i, j :: 0 <= i < j < |bitmaps| ==>
                   bitmaps[i].baseLabel + bitmaps[i].labelCount <= bitmaps[j].baseLabel
  {
    forall s | s in bitmaps
      ensures |s.bits| == (s.labelCount + 7) / 8 <==> 8 * |s.bits| - 8 < s.labelCount <= 8 * |s.bits|
    {
    }
    assert forall i :: 0 <= i < |bitmaps| ==> bitmaps[i] in bitmaps;
  }

  /** The label is covered by a segment and its bit is set there. */
  ghost predicate Covers(s: LabelBitmap, v: nat) {
    && s.baseLabel <= v < s.baseLabel + s.labelCount
    && (v - s.baseLabel) / 8 < |s.bits|
    && Bit(s.bits[(v - s.baseLabel) / 8], (v - s.baseLabel) % 8)
  }

  ghost predicate Admits(bitmaps: seq<LabelBitmap>, v: nat) {
    exists i :: 0 <= i < |bitmaps| && Covers(bitmaps[i], v)
  }

  // ---- Validation ----

  /** The bits of a last byte that lie past the `used` low ones. */
  function UnusedMask(used: nat): bv8
    requires 0 < used < 8
  {
    !((1 << used) - 1)
  }

  lemma MaskSeesUnusedBits(b: bv8, used: nat)
    requires 0 < used < 8
    ensures b & UnusedMask(used) == 0 <==> ClearFrom(b, used)
  {
    MaskIsUnion(b, used);
    if b & UnusedMask(used) != 0 {
      var n: nat :| used <= n < 8 && Bit(b, n);
    }
  }

  lemma MaskIsUnion(b: bv8, used: nat)
    requires 0 < used < 8
    ensures b & UnusedMask(used) != 0 <==>
              (used <= 1 && Bit(b, 1)) || (used <= 2 && Bit(b, 2)) || (used <= 3 && Bit(b, 3)) ||
              (used <= 4 && Bit(b, 4)) || (used <= 5 && Bit(b, 5)) || (used <= 6 && Bit(b, 6)) || Bit(b, 7)
  {
    if used == 1 {} else if used == 2 {} else if used == 3 {} else if used == 4 {} else if used == 5 {}
    else if used == 6 {} else { assert used == 7; }
  }

  /** The last byte has no bit past the segment's last label. */
  predicate TailIsClear(s: LabelBitmap)
    requires s.bits != []
  {
    s.labelCount % 8 == 0 || s.bits[|s.bits| - 1] & UnusedMask(s.labelCount % 8) == 0
  }

  lemma TailTest(s: LabelBitmap)
    requires 0 < s.labelCount && |s.bits| == (s.labelCount + 7) / 8
    ensures TailIsClear(s) <==> ClearFrom(s.bits[|s.bits| - 1], s.labelCount - 8 * (|s.bits| - 1))
  {
    var used := s.labelCount % 8;
    assert s.labelCount - 8 * (|s.bits| - 1) == if used == 0 then 8 else used;
    if used != 0 { MaskSeesUnusedBits(s.bits[|s.bits| - 1], used); }
  }

  function End(s: LabelBitmap): nat {
    s.baseLabel + s.labelCount
  }

  /** One more segment keeps a list in order exactly when it starts at or after
      the end of the one before it. */
  lemma NextInOrder(bitmaps: seq<LabelBitmap>, position: nat)
    requires position < |bitmaps| && ValidList(bitmaps[..position]) && ValidSegment(bitmaps[position])
    requires 0 < position ==> End(bitmaps[position - 1]) <= bitmaps[position].baseLabel
    ensures ValidList(bitmaps[..position + 1])
  {
    var before, next := bitmaps[..position], bitmaps[..position + 1];
    forall i | 0 <= i < position ensures End(next[i]) <= next[position].baseLabel {
      assert before[i] == next[i] && before[position - 1] == bitmaps[position - 1];
      if i < position - 1 { assert End(before[i]) <= before[position - 1].baseLabel; }
    }
    assert forall i :: 0 <= i < |next| ==> ValidSegment(next[i]) by {
      assert forall i :: 0 <= i < position ==> next[i] == before[i];
    }
  }

  method ValidateLabelBitmaps(bitmaps: seq<LabelBitmap>) returns (ok: bool)
    ensures ok <==> ValidList(bitmaps)
  {
    var previousEnd: nat := 0;
    for position := 0 to |bitmaps|
      invariant ValidList(bitmaps[..position])
      invariant previousEnd == if position == 0 then 0 else End(bitmaps[position - 1])
    {
      var bitmap := bitmaps[position];
      if bitmap.labelCount == 0 { return false; }
      if |bitmap.bits| != (bitmap.labelCount + 7) / 8 { return false; }
      var end := bitmap.baseLabel + bitmap.labelCount;
      if U64 <= end { return false; }
      if 0 < position && bitmap.baseLabel < previousEnd {
        assert bitmaps[position - 1].baseLabel + bitmaps[position - 1].labelCount > bitmaps[position].baseLabel;
        return false;
      }
      TailTest(bitmap);
      if bitmap.labelCount % 8 != 0 {
        if bitmap.bits[|bitmap.bits| - 1] & UnusedMask(bitmap.labelCount % 8) != 0 { return false; }
      }
      NextInOrder(bitmaps, position);
      previousEnd := end;
    }
    assert bitmaps[..|bitmaps|] == bitmaps;
    return true;
  }

  // ---- Lookup ----

  /** `partition_point`: the first position at or after `lo` whose segment
      starts past `v`, by bisection. */
  function PartitionPoint(bitmaps: seq<LabelBitmap>, v: u64, lo: nat, hi: nat): (p: nat)
    requires lo <= hi <= |bitmaps|
    ensures lo <= p <= hi
    decreases hi - lo
  {
    if lo == hi then lo
    else
      var mid := lo + (hi - lo) / 2;
      if bitmaps[mid].baseLabel <= v then PartitionPoint(bitmaps, v, mid + 1, hi)
      else PartitionPoint(bitmaps, v, lo, mid)
  }

  lemma {:induction false} BisectionSplits(bitmaps: seq<LabelBitmap>, v: u64, lo: nat, hi: nat)
    requires lo <= hi <= |bitmaps|
    requires forall i, j :: 0 <= i < j < |bitmaps| ==> bitmaps[i].baseLabel <= bitmaps[j].baseLabel
    ensures forall i :: lo <= i < hi ==>
              (bitmaps[i].baseLabel <= v <==> i < PartitionPoint(bitmaps, v, lo, hi))
    decreases hi - lo
  {
    if lo < hi {
      var mid := lo + (hi - lo) / 2;
      if bitmaps[mid].baseLabel <= v {
        BisectionSplits(bitmaps, v, mid + 1, hi);
      } else {
        BisectionSplits(bitmaps, v, lo, mid);
      }
    }
  }

  lemma PartitionSplits(bitmaps: seq<LabelBitmap>, v: u64, lo: nat, hi: nat)
    requires ValidList(bitmaps) && lo <= hi <= |bitmaps|
    ensures forall i :: lo <= i < hi ==>
              (bitmaps[i].baseLabel <= v <==> i < PartitionPoint(bitmaps, v, lo, hi))
  {
    forall i, j | 0 <= i < j < |bitmaps| ensures bitmaps[i].baseLabel <= bitmaps[j].baseLabel {
      assert bitmaps[i].baseLabel + bitmaps[i].labelCount <= bitmaps[j].baseLabel;
    }
    BisectionSplits(bitmaps, v, lo, hi);
  }

  lemma ByteInRange(offset: nat, count: nat, bytes: nat)
    requires offset < count && bytes == (count + 7) / 8
    ensures offset / 8 < bytes
  {
  }

  /** The segment's bit for the label, if the segment reaches it. The code
      indexes a byte without checking; in a well-formed segment it is there. */
  predicate InSegment(s: LabelBitmap, v: u64)
    requires |s.bits| == (s.labelCount + 7) / 8 && s.baseLabel <= v
  {
    var offset := v - s.baseLabel;
    if s.labelCount <= offset then false
    else
      ByteInRange(offset, s.labelCount, |s.bits|);
      s.bits[offset / 8] & (1 << (offset % 8)) != 0
  }

  lemma InSegmentIsCovered(s: LabelBitmap, v: u64)
    requires ValidSegment(s) && s.baseLabel <= v
    ensures InSegment(s, v) <==> Covers(s, v)
  {
    if v - s.baseLabel < s.labelCount { ByteInRange(v - s.baseLabel, s.labelCount, |s.bits|); }
  }

  function LabelInBitmaps(bitmaps: seq<LabelBitmap>, v: u64): bool
    requires ValidList(bitmaps)
  {
    var position := PartitionPoint(bitmaps, v, 0, |bitmaps|);
    if position == 0 then false
    else
      PartitionSplits(bitmaps, v, 0, |bitmaps|);
      InSegment(bitmaps[position - 1], v)
  }

  /** Only the last segment that starts at or before a label can cover it. */
  lemma OnlyTheLastCovers(bitmaps: seq<LabelBitmap>, v: u64, i: nat)
    requires ValidList(bitmaps) && i < |bitmaps| && Covers(bitmaps[i], v)
    ensures PartitionPoint(bitmaps, v, 0, |bitmaps|) == i + 1
  {
    PartitionSplits(bitmaps, v, 0, |bitmaps|);
    var position := PartitionPoint(bitmaps, v, 0, |bitmaps|);
    assert forall k :: 0 <= k && k + 1 < position ==>
      bitmaps[k].baseLabel + bitmaps[k].labelCount <= bitmaps[position - 1].baseLabel;
  }

  lemma LookupFinds(bitmaps: seq<LabelBitmap>, v: u64)
    requires ValidList(bitmaps) && LabelInBitmaps(bitmaps, v)
    ensures Admits(bitmaps, v)
  {
    PartitionSplits(bitmaps, v, 0, |bitmaps|);
    var i := PartitionPoint(bitmaps, v, 0, |bitmaps|) - 1;
    InSegmentIsCovered(bitmaps[i], v);
  }

  lemma LookupIsCoverage(bitmaps: seq<LabelBitmap>, v: u64)
    requires ValidList(bitmaps)
    ensures LabelInBitmaps(bitmaps, v) <==> Admits(bitmaps, v)
  {
    if LabelInBitmaps(bitmaps, v) { LookupFinds(bitmaps, v); }
    if Admits(bitmaps, v) {
      var i :| 0 <= i < |bitmaps| && Covers(bitmaps[i], v);
      OnlyTheLastCovers(bitmaps, v, i);
      InSegmentIsCovered(bitmaps[i], v);
    }
  }

  // ---- The row mask ----

  /** The mask a node builds from an explicit label set. */
  function MaskFromSet(labels: seq<u64>, allowed: set<u64>): seq<bool> {
    seq(|labels|, i requires 0 <= i < |labels| => labels[i] in allowed)
  }

  function MaskFromBitmaps(labels: seq<u64>, bitmaps: seq<LabelBitmap>): seq<bool>
    requires ValidList(bitmaps)
  {
    seq(|labels|, i requires 0 <= i < |labels| => LabelInBitmaps(bitmaps, labels[i]))
  }

  /** The two ways to ship one label set select the same rows of every shard. */
  lemma MasksAgree(labels: seq<u64>, bitmaps: seq<LabelBitmap>, allowed: set<u64>)
    requires ValidList(bitmaps)
    requires forall v: u64 :: v in allowed <==> Admits(bitmaps, v)
    ensures MaskFromBitmaps(labels, bitmaps) == MaskFromSet(labels, allowed)
    ensures |MaskFromSet(labels, allowed)| == |labels|
    ensures forall i :: 0 <= i < |labels| ==> (MaskFromSet(labels, allowed)[i] <==> labels[i] in allowed)
  {
    forall i | 0 <= i < |labels| ensures MaskFromBitmaps(labels, bitmaps)[i] == MaskFromSet(labels, allowed)[i] {
      LookupIsCoverage(bitmaps, labels[i]);
    }
  }
}
