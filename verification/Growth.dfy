/** Repeated autoscaler ticks as a function of shard sizes and spares. */
module Growth {
  import opened Ranking
  import opened Rows
  import opened Reshape

  /** The first shard over the ceiling, in table order; the length if none is. */
  function FirstOver(lens: seq<u64>, ceiling: u64): (at: nat)
    ensures at <= |lens| && (at < |lens| ==> ceiling < lens[at])
    ensures forall i :: 0 <= i < at ==> lens[i] <= ceiling
  {
    if lens == [] then 0 else if ceiling < lens[0] then 0 else 1 + FirstOver(lens[1..], ceiling)
  }

  /** The even two-way plan: the kept half and the half that moves. */
  function Halves(rows: u64): (r: seq<u64>)
    ensures r == [rows - rows / 2, rows / 2] && Sum(r) == rows
  {
    EvenPlanIsExact(rows, 2);
    var r := PlanCounts(rows, 2, []).value;
    assert r[..2] == r && r[..1] == [r[0]] && r[..0] == [];
    assert Sum([r[0]]) == r[0] by { assert [r[0]][..0] == []; }
    assert r == [r[0], r[1]];
    r
  }

  /** One tick on a servable collection whose spares answer. */
  function Tick(lens: seq<u64>, spares: nat, ceiling: u64): (seq<u64>, nat) {
    var at := FirstOver(lens, ceiling);
    if at == |lens| || spares == 0 then (lens, spares)
    else (lens[..at] + Halves(lens[at]) + lens[at + 1..], spares - 1)
  }

  function Ticks(lens: seq<u64>, spares: nat, ceiling: u64, n: nat): (seq<u64>, nat) {
    if n == 0 then (lens, spares)
    else
      var (now, left) := Ticks(lens, spares, ceiling, n - 1);
      Tick(now, left, ceiling)
  }

  lemma {:induction false} SumConcat(a: seq<u64>, b: seq<u64>)
    ensures Sum(a + b) == Sum(a) + Sum(b)
  {
    if b == [] {
      assert a + b == a;
    } else {
      assert (a + b)[..|a + b| - 1] == a + b[..|b| - 1];
      SumConcat(a, b[..|b| - 1]);
    }
  }

  /** A tick moves rows, it does not make or lose any. */
  lemma TickConserves(lens: seq<u64>, spares: nat, ceiling: u64)
    ensures Sum(Tick(lens, spares, ceiling).0) == Sum(lens)
  {
    var at := FirstOver(lens, ceiling);
    if at < |lens| && 0 < spares {
      var before, after, halves := lens[..at], lens[at + 1..], Halves(lens[at]);
      assert lens == before + [lens[at]] + after;
      SumConcat(before, [lens[at]]);
      SumConcat(before + [lens[at]], after);
      SumConcat(before, halves);
      SumConcat(before + halves, after);
      assert Sum([lens[at]]) == lens[at] by { assert [lens[at]][..0] == []; }
    }
  }

  /** Half the smallest shard that is ever split. */
  function Floor(ceiling: u64): nat {
    (ceiling + 1) / 2
  }

  ghost predicate AtLeast(lens: seq<u64>, least: nat) {
    forall i :: 0 <= i < |lens| ==> least <= lens[i]
  }

  ghost predicate AtMost(lens: seq<u64>, most: nat) {
    forall i :: 0 <= i < |lens| ==> lens[i] <= most
  }

  lemma {:induction false} CountTimesLeast(lens: seq<u64>, least: nat)
    requires AtLeast(lens, least)
    ensures Bytes(least, |lens|) <= Sum(lens)
  {
    if lens != [] { CountTimesLeast(lens[..|lens| - 1], least); }
  }

  lemma BytesBelow(width: nat, m: nat, n: nat)
    requires Bytes(width, m) < Bytes(width, n)
    ensures m < n
  {
    if n <= m { BytesMonotone(width, n, m); }
  }

  lemma QuotientBound(width: nat, n: nat, total: nat)
    requires 0 < width && Bytes(width, n) <= total
    ensures n <= total / width
  {
    var q := total / width;
    BytesIsProduct(width, q);
    assert total == q * width + total % width;
    assert Bytes(width, q + 1) == width + q * width;
    BytesBelow(width, n, q + 1);
  }

  lemma CountIsBounded(lens: seq<u64>, least: nat)
    requires AtLeast(lens, least) && 0 < least
    ensures |lens| <= Sum(lens) / least
  {
    CountTimesLeast(lens, least);
    QuotientBound(least, |lens|, Sum(lens));
  }

  ghost predicate Stopped(lens: seq<u64>, spares: nat, ceiling: u64) {
    Tick(lens, spares, ceiling) == (lens, spares)
  }

  lemma TickShrinksPool(lens: seq<u64>, spares: nat, ceiling: u64)
    ensures var (now, left) := Tick(lens, spares, ceiling);
            || (now == lens && left == spares && Stopped(lens, spares, ceiling))
            || (left == spares - 1 && |now| == |lens| + 1)
    ensures Stopped(lens, spares, ceiling) ==> spares == 0 || AtMost(lens, ceiling)
  {
  }

  /** A shard worth splitting leaves two halves of at least the floor. */
  lemma TickKeepsFloor(lens: seq<u64>, spares: nat, ceiling: u64)
    requires 0 < ceiling && (|lens| == 1 || AtLeast(lens, Floor(ceiling)))
    ensures var now := Tick(lens, spares, ceiling).0; now == lens || AtLeast(now, Floor(ceiling))
  {
    var at := FirstOver(lens, ceiling);
    if at < |lens| && 0 < spares {
      var halves := Halves(lens[at]);
      assert AtLeast(halves, Floor(ceiling));
      assert AtLeast(lens[..at], Floor(ceiling)) && AtLeast(lens[at + 1..], Floor(ceiling));
    }
  }

  /** What ticks keep, from one shard on. */
  lemma {:induction false} TicksKeep(rows: u64, spares: nat, ceiling: u64, n: nat)
    requires 0 < ceiling
    ensures var (lens, left) := Ticks([rows], spares, ceiling, n);
            && Sum(lens) == rows && |lens| + left == 1 + spares
            && (lens == [rows] || (1 < |lens| && AtLeast(lens, Floor(ceiling))))
            && (left + n == spares || Stopped(lens, left, ceiling))
  {
    if n == 0 {
      assert [rows][..0] == [];
    } else {
      TicksKeep(rows, spares, ceiling, n - 1);
      var (lens, left) := Ticks([rows], spares, ceiling, n - 1);
      TickConserves(lens, left, ceiling);
      TickShrinksPool(lens, left, ceiling);
      TickKeepsFloor(lens, left, ceiling);
    }
  }

  /** Repeated ticks stop within as many ticks as there are spares; each split
      takes one spare; once split, no shard is below half the ceiling, so the
      count is bounded by the rows; and with that many spares every shard ends
      at or under the ceiling. */
  lemma GrowthStops(rows: u64, spares: nat, ceiling: u64, n: nat)
    requires 0 < ceiling && spares <= n
    ensures var (lens, left) := Ticks([rows], spares, ceiling, n);
            && Stopped(lens, left, ceiling)
            && Sum(lens) == rows && left == spares - (|lens| - 1)
            && (1 < |lens| ==>
                  && |lens| <= rows / ((ceiling + 1) / 2)
                  && forall i :: 0 <= i < |lens| ==> (ceiling + 1) / 2 <= lens[i])
            && (rows / ((ceiling + 1) / 2) <= spares ==> forall i :: 0 <= i < |lens| ==> lens[i] <= ceiling)
  {
    TicksKeep(rows, spares, ceiling, n);
    var (lens, left) := Ticks([rows], spares, ceiling, n);
    TickShrinksPool(lens, left, ceiling);
    if 1 < |lens| {
      CountIsBounded(lens, Floor(ceiling));
    } else if ceiling < rows {
      QuotientBound(Floor(ceiling), 1, rows);
    }
  }
}
