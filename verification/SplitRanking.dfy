/** Split and Join move rows between shards without changing any answer: not
    its scores, not which rows it lists, not the order of ties. */
module SplitRanking {
  import opened Float32
  import opened Flatten
  import opened LabelBitmaps
  import opened Ranking
  import opened Rows
  import opened Transfer
  import opened Reshape
  import C = Collector
  import P = ScanProtocol
  import A = AnswerOrder
  import G = GlobalOrder

  // ---- Rows as content ----

  /** All that a scan can see of one row. */
  datatype Row = Row(shape: Shape, codes: seq<byte>, scale: Bits, rowLabel: Option<u64>)

  function ShapeWidth(shape: Shape): nat {
    RowWidth(shape.dim, shape.bitWidth)
  }

  function CodesAt(width: nat, rows: nat, packed: seq<byte>, i: nat): seq<byte>
    requires |packed| == Bytes(width, rows) && i < rows
  {
    BytesMonotone(width, i, i + 1);
    BytesMonotone(width, i + 1, rows);
    packed[Bytes(width, i)..Bytes(width, i + 1)]
  }

  function RowAt(s: Stored, i: nat): Row
    requires Sound(s) && i < s.index.rows
  {
    Row(SourceShape(s), CodesAt(Width(s.index), s.index.rows, s.index.packed, i), s.index.scales[i],
        if s.labels.Some? then Some(s.labels.value[i]) else None)
  }

  function RowsOf(s: Stored): seq<Row>
    requires Sound(s)
  {
    seq(s.index.rows, i requires 0 <= i < s.index.rows => RowAt(s, i))
  }

  ghost predicate AllSound(table: seq<Stored>) {
    forall s :: s in table ==> Sound(s)
  }

  function RowLists(table: seq<Stored>): seq<seq<Row>>
    requires AllSound(table)
  {
    seq(|table|, i requires 0 <= i < |table| => RowsOf(table[i]))
  }

  /** The rows of the collection in table order. */
  function Contents(table: seq<Stored>): seq<Row>
    requires AllSound(table)
  {
    Flat(RowLists(table))
  }

  // ---- What a query makes of the rows ----

  /** The scoring of one query, foreign code that depends on nothing but the
      row and the query, and the query's label filter. */
  datatype Lens = Lens(score: (Shape, seq<byte>, Bits) -> Score, allowed: Option<set<u64>>)

  function See(lens: Lens, row: Row): P.ScoredRow {
    P.ScoredRow(lens.score(row.shape, row.codes, row.scale),
                if row.rowLabel.Some? then row.rowLabel.value else 0,
                lens.allowed.None? || (row.rowLabel.Some? && row.rowLabel.value in lens.allowed.value))
  }

  function Seen(lens: Lens): Row -> P.ScoredRow {
    row => See(lens, row)
  }

  function View(lens: Lens, s: Stored): P.Shard
    requires Sound(s)
  {
    P.Shard(Map(Seen(lens), RowsOf(s)), s.labels.Some?)
  }

  /** A query sees each row by its codes, its scale and its label, and a filter
      admits it by the mask that the node builds. */
  lemma ViewIs(lens: Lens, s: Stored, i: nat)
    requires Sound(s) && i < s.index.rows && i < |s.index.scales|
    ensures |View(lens, s).rows| == s.index.rows && View(lens, s).labelled == s.labels.Some?
    ensures var row, width := View(lens, s).rows[i], RowWidth(s.index.dim, s.index.bitWidth);
            && Bytes(width, i) <= Bytes(width, i + 1) <= |s.index.packed|
            && row.score == lens.score(SourceShape(s), s.index.packed[Bytes(width, i)..Bytes(width, i + 1)],
                                       s.index.scales[i])
            && (s.labels.Some? ==>
                  && i < |s.labels.value| && row.rowLabel == s.labels.value[i]
                  && (lens.allowed.Some? ==> row.admitted == MaskFromSet(s.labels.value, lens.allowed.value)[i]))
            && (lens.allowed.None? ==> row.admitted)
  {
    BytesMonotone(RowWidth(s.index.dim, s.index.bitWidth), i, i + 1);
    BytesMonotone(RowWidth(s.index.dim, s.index.bitWidth), i + 1, s.index.rows);
  }

  function QueryOn(o: C.Options, lens: Lens, limits: P.Limits, table: seq<Stored>): P.Query
    requires AllSound(table)
  {
    P.Query(seq(|table|, i requires 0 <= i < |table| => View(lens, table[i])), o, limits)
  }

  /** A node refuses a filtered search on an index without labels. */
  ghost predicate Searchable(o: C.Options, lens: Lens, table: seq<Stored>) {
    && AllSound(table) && table != [] && 1 <= o.k
    && (o.stableLabelOrder || lens.allowed.Some? ==> forall s :: s in table ==> s.labels.Some?)
  }

  lemma SearchableIs(o: C.Options, lens: Lens, table: seq<Stored>)
    ensures Searchable(o, lens, table) <==>
              && table != [] && 1 <= o.k
              && forall s :: s in table ==> Sound(s) && (o.stableLabelOrder || lens.allowed.Some? ==> s.labels.Some?)
  {
  }

  lemma SearchableIsAccepted(o: C.Options, lens: Lens, limits: P.Limits, table: seq<Stored>)
    requires Searchable(o, lens, table)
    ensures P.Accepted(QueryOn(o, lens, limits, table))
  {
    assert forall i :: 0 <= i < |table| ==> table[i] in table;
  }

  lemma TableRowsAreSeen(o: C.Options, lens: Lens, limits: P.Limits, table: seq<Stored>)
    requires AllSound(table)
    ensures G.RowParts(QueryOn(o, lens, limits, table).shards) == MapParts(Seen(lens), RowLists(table))
    ensures G.TableRows(QueryOn(o, lens, limits, table).shards) == Map(Seen(lens), Contents(table))
  {
    var q := QueryOn(o, lens, limits, table);
    assert G.RowParts(q.shards) == MapParts(Seen(lens), RowLists(table));
    FlatMap(Seen(lens), RowLists(table));
  }

  // ---- Moved rows ----

  /** The same row after a move: every bit of it, and its label if it had one. */
  predicate Moved(a: Row, b: Row) {
    a.shape == b.shape && a.codes == b.codes && a.scale == b.scale && (a.rowLabel.Some? ==> a.rowLabel == b.rowLabel)
  }

  ghost predicate AllMoved(a: seq<Row>, b: seq<Row>) {
    |a| == |b| && forall p :: 0 <= p < |a| ==> Moved(a[p], b[p])
  }

  lemma MovedConcat(a: seq<Row>, b: seq<Row>, c: seq<Row>, d: seq<Row>)
    requires AllMoved(a, b) && AllMoved(c, d)
    ensures AllMoved(a + c, b + d)
  {
  }

  function RunRow(shape: Shape, run: Run, i: nat): Row
    requires AlignedRun(ShapeWidth(shape), run) && i < run.rows
  {
    Row(shape, CodesAt(ShapeWidth(shape), run.rows, run.packed, i), run.scales[i], Some(run.labels[i]))
  }

  function RunRows(shape: Shape, run: Run): seq<Row>
    requires AlignedRun(ShapeWidth(shape), run)
  {
    seq(run.rows, i requires 0 <= i < run.rows => RunRow(shape, run, i))
  }

  lemma CodesInFirst(width: nat, m: nat, a: seq<byte>, n: nat, b: seq<byte>, i: nat)
    requires |a| == Bytes(width, m) && |b| == Bytes(width, n) && i < m
    ensures |a + b| == Bytes(width, m + n) && CodesAt(width, m + n, a + b, i) == CodesAt(width, m, a, i)
  {
    BytesAdd(width, m, n);
    BytesMonotone(width, i, i + 1);
    BytesMonotone(width, i + 1, m);
  }

  lemma CodesInSecond(width: nat, m: nat, a: seq<byte>, n: nat, b: seq<byte>, i: nat)
    requires |a| == Bytes(width, m) && |b| == Bytes(width, n) && i < n
    ensures |a + b| == Bytes(width, m + n) && CodesAt(width, m + n, a + b, m + i) == CodesAt(width, n, b, i)
  {
    BytesAdd(width, m, n);
    BytesAdd(width, m, i);
    BytesAdd(width, m, i + 1);
    BytesMonotone(width, i, i + 1);
    BytesMonotone(width, i + 1, n);
  }

  lemma RunRowThen(shape: Shape, a: Run, b: Run, i: nat)
    requires AlignedRun(ShapeWidth(shape), a) && AlignedRun(ShapeWidth(shape), b) && i < a.rows + b.rows
    ensures AlignedRun(ShapeWidth(shape), a.Then(b))
    ensures RunRow(shape, a.Then(b), i) == if i < a.rows then RunRow(shape, a, i) else RunRow(shape, b, i - a.rows)
  {
    if i < a.rows {
      CodesInFirst(ShapeWidth(shape), a.rows, a.packed, b.rows, b.packed, i);
    } else {
      CodesInSecond(ShapeWidth(shape), a.rows, a.packed, b.rows, b.packed, i - a.rows);
    }
  }

  lemma RunRowsThen(shape: Shape, a: Run, b: Run)
    requires AlignedRun(ShapeWidth(shape), a) && AlignedRun(ShapeWidth(shape), b)
    ensures AlignedRun(ShapeWidth(shape), a.Then(b))
    ensures RunRows(shape, a.Then(b)) == RunRows(shape, a) + RunRows(shape, b)
  {
    BytesAdd(ShapeWidth(shape), a.rows, b.rows);
    forall i | 0 <= i < a.rows + b.rows
      ensures RunRows(shape, a.Then(b))[i] == (RunRows(shape, a) + RunRows(shape, b))[i]
    {
      RunRowThen(shape, a, b, i);
    }
  }

  /** A stored index's rows are the rows of its export, labels filled in. */
  lemma WholeIsRows(s: Stored)
    requires Sound(s)
    ensures AlignedRun(ShapeWidth(SourceShape(s)), Whole(s))
    ensures AllMoved(RowsOf(s), RunRows(SourceShape(s), Whole(s)))
    ensures s.labels.Some? ==> RowsOf(s) == RunRows(SourceShape(s), Whole(s))
  {
    WholeSlice(s);
  }

  /** Shards of one shape, end to end, are the rows of their joined run. */
  lemma {:induction false} ContentsAreWholes(shape: Shape, shards: seq<Stored>)
    requires AllSound(shards) && forall s :: s in shards ==> SourceShape(s) == shape
    ensures AlignedRun(ShapeWidth(shape), Wholes(shards))
    ensures AllMoved(Contents(shards), RunRows(shape, Wholes(shards)))
    ensures (forall s :: s in shards ==> s.labels.Some?) ==> Contents(shards) == RunRows(shape, Wholes(shards))
  {
    if shards != [] {
      var init, last := shards[..|shards| - 1], shards[|shards| - 1];
      assert last in shards && forall s :: s in init ==> s in shards;
      ContentsAreWholes(shape, init);
      WholeIsRows(last);
      RunRowsThen(shape, Wholes(init), Whole(last));
      assert RowLists(shards)[..|shards| - 1] == RowLists(init);
      MovedConcat(Contents(init), RunRows(shape, Wholes(init)), RowsOf(last), RunRows(shape, Whole(last)));
    }
  }

  // ---- Split and Join keep the collection's rows ----

  /** The autoscaler's splice: the source's place goes to its pieces. */
  function Spliced(table: seq<Stored>, at: nat, pieces: seq<Stored>): seq<Stored>
    requires at < |table|
  {
    table[..at] + pieces + table[at + 1..]
  }

  lemma ContentsConcat(a: seq<Stored>, b: seq<Stored>)
    requires AllSound(a) && AllSound(b)
    ensures AllSound(a + b) && Contents(a + b) == Contents(a) + Contents(b)
  {
    assert RowLists(a + b) == RowLists(a) + RowLists(b);
    FlatConcat(RowLists(a), RowLists(b));
  }

  lemma {:induction false} PiecesLabelled(s: Stored, counts: seq<u64>)
    requires Sound(s) && Sum(counts) <= s.index.rows
    ensures forall p :: p in Pieces(s, counts) ==> p.labels.Some? && SourceShape(p) == SourceShape(s)
  {
    if counts != [] { PiecesLabelled(s, counts[..|counts| - 1]); }
  }

  lemma PiecesKeepRows(s: Stored, counts: seq<u64>)
    requires Sound(s) && Sum(counts) == s.index.rows
    ensures AllSound(Pieces(s, counts)) && AllMoved(RowsOf(s), Contents(Pieces(s, counts)))
  {
    PiecesSound(s, counts);
    PiecesLabelled(s, counts);
    PiecesSpellSource(s, counts);
    ContentsAreWholes(SourceShape(s), Pieces(s, counts));
    WholeIsRows(s);
  }

  lemma ContentsOfOne(s: Stored)
    requires Sound(s)
    ensures Contents([s]) == RowsOf(s)
  {
    assert RowLists([s]) == [RowsOf(s)];
    assert [RowsOf(s)][..0] == [] && Flat(([RowsOf(s)])[..0]) == [];
    assert Flat([RowsOf(s)]) == [] + RowsOf(s);
  }

  lemma MovedItself(a: seq<Row>)
    ensures AllMoved(a, a)
  {
  }

  /** However the source is cut, the spliced table holds the same rows in the
      same order. */
  lemma SpliceKeepsRows(table: seq<Stored>, at: nat, counts: seq<u64>)
    requires AllSound(table) && at < |table| && Sum(counts) == table[at].index.rows
    ensures AllSound(Spliced(table, at, Pieces(table[at], counts)))
    ensures AllMoved(Contents(table), Contents(Spliced(table, at, Pieces(table[at], counts))))
  {
    var s, before, after := table[at], table[..at], table[at + 1..];
    var pieces := Pieces(s, counts);
    PiecesKeepRows(s, counts);
    ContentsConcat(before, pieces);
    ContentsConcat(before + pieces, after);
    ContentsConcat(before, [s]);
    ContentsConcat(before + [s], after);
    ContentsOfOne(s);
    assert table == before + [s] + after;
    MovedItself(Contents(before));
    MovedItself(Contents(after));
    MovedConcat(Contents(before), Contents(before), RowsOf(s), Contents(pieces));
    MovedConcat(Contents(before) + RowsOf(s), Contents(before) + Contents(pieces), Contents(after), Contents(after));
  }

  /** A join holds the rows of its sources in table order. */
  lemma JoinKeepsRows(sources: seq<Stored>)
    requires AllSound(sources) && Servable(sources) && Sum(RowCounts(sources)) < U64
    ensures Sound(JoinAll(sources)) && AllMoved(Contents(sources), Contents([JoinAll(sources)]))
  {
    var shape := SourceShape(sources[0]);
    ContentsAreWholes(shape, sources);
    WholesCount(sources);
    var joined := JoinAll(sources);
    assert sources[0] in sources;
    ContentsOfOne(joined);
    assert RowsOf(joined) == RunRows(shape, Wholes(sources));
  }

  // ---- The same rows give the same answer ----

  /** An answer's entry names a row of the table. */
  ghost predicate Names(table: seq<Stored>, c: HeapCandidate)
    requires AllSound(table)
  {
    c.shardRank < |table| && c.slot < table[c.shardRank].index.rows
  }

  ghost function Named(table: seq<Stored>, c: HeapCandidate): Row
    requires AllSound(table) && Names(table, c)
  {
    RowAt(table[c.shardRank], c.slot)
  }

  lemma SeenAlike(
    o: C.Options, lens: Lens, limits: P.Limits, table: seq<Stored>, later: P.Limits, next: seq<Stored>)
    requires Searchable(o, lens, table) && Searchable(o, lens, next)
    requires AllMoved(Contents(table), Contents(next))
    ensures G.SameRows(o, G.TableRows(QueryOn(o, lens, limits, table).shards),
                          G.TableRows(QueryOn(o, lens, later, next).shards))
  {
    TableRowsAreSeen(o, lens, limits, table);
    TableRowsAreSeen(o, lens, later, next);
    if lens.allowed.Some? || o.stableLabelOrder {
      forall p | 0 <= p < |Contents(table)| ensures Contents(table)[p].rowLabel.Some? {
        LabelledContents(o, lens, table, p);
      }
    }
  }

  lemma LabelledContents(o: C.Options, lens: Lens, table: seq<Stored>, p: nat)
    requires Searchable(o, lens, table) && p < |Contents(table)|
    requires lens.allowed.Some? || o.stableLabelOrder
    ensures Contents(table)[p].rowLabel.Some?
  {
    var i, j := Locate(RowLists(table), p);
    ElementAt(RowLists(table), i, j);
    assert table[i] in table;
  }

  /** An eligible candidate's place in the single order, and the row there. */
  lemma PlaceOf(o: C.Options, lens: Lens, limits: P.Limits, table: seq<Stored>, c: HeapCandidate)
    requires AllSound(table) && P.IsEligible(QueryOn(o, lens, limits, table), c)
    ensures Names(table, c)
    ensures var g := G.ToGlobal(QueryOn(o, lens, limits, table), c);
            g.score == c.score && g.slot < |Contents(table)| && Contents(table)[g.slot] == Named(table, c)
  {
    TableRowsAreSeen(o, lens, limits, table);
    assert QueryOn(o, lens, limits, table).shards[c.shardRank] == View(lens, table[c.shardRank]);
    MapKeepsPositions(Seen(lens), RowLists(table), c.shardRank, c.slot);
    ElementAt(RowLists(table), c.shardRank, c.slot);
  }

  /** The two entries name one row: the same codes, scale and shape, and the same
      label if it had one. */
  ghost predicate SameRow(table: seq<Stored>, c: HeapCandidate, next: seq<Stored>, d: HeapCandidate)
    requires AllSound(table) && AllSound(next)
  {
    && Names(table, c) && Names(next, d)
    && var (was, now) := (RowAt(table[c.shardRank], c.slot), RowAt(next[d.shardRank], d.slot));
       && was.shape == now.shape && was.codes == now.codes && was.scale == now.scale
       && (was.rowLabel.Some? ==> was.rowLabel == now.rowLabel)
  }

  /** Bit by bit: one dim and width, equal bytes of codes, equal scale, one
      calibration, and the label. */
  lemma SameRowIs(table: seq<Stored>, c: HeapCandidate, next: seq<Stored>, d: HeapCandidate)
    requires AllSound(table) && AllSound(next) && c.shardRank < |table| && d.shardRank < |next|
    requires c.slot < table[c.shardRank].index.rows && d.slot < next[d.shardRank].index.rows
    ensures var (s, t) := (table[c.shardRank], next[d.shardRank]);
            var width := RowWidth(s.index.dim, s.index.bitWidth);
            && Sound(s) && Sound(t) && Bytes(width, c.slot) <= Bytes(width, c.slot + 1) <= |s.index.packed|
            && (SameRow(table, c, next, d) ==>
                  && s.index.dim == t.index.dim && s.index.bitWidth == t.index.bitWidth
                  && s.index.calibration == t.index.calibration
                  && Bytes(width, d.slot) <= Bytes(width, d.slot + 1) <= |t.index.packed|
                  && s.index.packed[Bytes(width, c.slot)..Bytes(width, c.slot + 1)]
                  == t.index.packed[Bytes(width, d.slot)..Bytes(width, d.slot + 1)]
                  && s.index.scales[c.slot] == t.index.scales[d.slot]
                  && (s.labels.Some? ==> t.labels.Some? && s.labels.value[c.slot] == t.labels.value[d.slot]))
  {
    var s, t := table[c.shardRank], next[d.shardRank];
    assert s in table && t in next;
    var width, other := RowWidth(s.index.dim, s.index.bitWidth), RowWidth(t.index.dim, t.index.bitWidth);
    BytesMonotone(width, c.slot, c.slot + 1);
    BytesMonotone(width, c.slot + 1, s.index.rows);
    BytesMonotone(other, d.slot, d.slot + 1);
    BytesMonotone(other, d.slot + 1, t.index.rows);
  }

  /** Entry by entry: the same score for the same row, at the same place of the
      collection's single order. */
  ghost predicate SameAnswer(
    o: C.Options, lens: Lens, limits: P.Limits, table: seq<Stored>, r: seq<HeapCandidate>,
    later: P.Limits, next: seq<Stored>, u: seq<HeapCandidate>)
    requires AllSound(table) && AllSound(next)
  {
    && |r| == |u|
    && forall i :: 0 <= i < |r| ==>
         && Names(table, r[i]) && Names(next, u[i])
         && r[i].score == u[i].score
         && Moved(Named(table, r[i]), Named(next, u[i]))
         && G.ToGlobal(QueryOn(o, lens, limits, table), r[i]) == G.ToGlobal(QueryOn(o, lens, later, next), u[i])
  }

  lemma MovedRowsSameAnswer(
    o: C.Options, lens: Lens, limits: P.Limits, table: seq<Stored>, r: seq<HeapCandidate>,
    later: P.Limits, next: seq<Stored>, u: seq<HeapCandidate>)
    requires Searchable(o, lens, table) && Searchable(o, lens, next)
    requires AllMoved(Contents(table), Contents(next))
    requires A.IsAnswer(QueryOn(o, lens, limits, table), r) && A.IsAnswer(QueryOn(o, lens, later, next), u)
    ensures SameAnswer(o, lens, limits, table, r, later, next, u)
  {
    var q, t := QueryOn(o, lens, limits, table), QueryOn(o, lens, later, next);
    SeenAlike(o, lens, limits, table, later, next);
    G.AnswerIgnoresBoundaries(q, t, r, u);
    A.AnswersAreEligible(q, r);
    A.AnswersAreEligible(t, u);
    assert |G.Globally(q, r)| == |r| && |G.Globally(t, u)| == |u|;
    forall i | 0 <= i < |r|
      ensures Names(table, r[i]) && Names(next, u[i]) && r[i].score == u[i].score
      ensures Moved(Named(table, r[i]), Named(next, u[i])) && G.ToGlobal(q, r[i]) == G.ToGlobal(t, u[i])
    {
      assert G.Globally(q, r)[i] == G.Globally(t, u)[i];
      assert r[i] in r && u[i] in u;
      PlaceOf(o, lens, limits, table, r[i]);
      PlaceOf(o, lens, later, next, u[i]);
    }
  }

  /** A run of the search over this table that returned an answer. */
  ghost predicate Returns(o: C.Options, lens: Lens, limits: P.Limits, table: seq<Stored>, run: seq<P.System>)
    requires Searchable(o, lens, table)
  {
    var q := QueryOn(o, lens, limits, table);
    SearchableIsAccepted(o, lens, limits, table);
    P.IsRun(q, run) && run[|run| - 1].phase.Returned?
  }

  /** A split spliced in place changes no answer, tie order included: any run
      of the search on the old table and any on the new one that return, return
      the same rows in the same order, whatever each deployment grants. */
  lemma SplitChangesNoAnswer(
    o: C.Options, lens: Lens, limits: P.Limits, later: P.Limits, table: seq<Stored>, at: nat, counts: seq<u64>,
    run: seq<P.System>, after: seq<P.System>)
    requires AllSound(table) && at < |table| && Sum(counts) == table[at].index.rows
    requires var next := Spliced(table, at, Pieces(table[at], counts));
             && Searchable(o, lens, table) && P.Accepted(QueryOn(o, lens, limits, table))
             && Searchable(o, lens, next) && P.Accepted(QueryOn(o, lens, later, next))
             && P.IsRun(QueryOn(o, lens, limits, table), run) && run[|run| - 1].phase.Returned?
             && P.IsRun(QueryOn(o, lens, later, next), after) && after[|after| - 1].phase.Returned?
    ensures var next := Spliced(table, at, Pieces(table[at], counts));
            var r, u := run[|run| - 1].phase.answer, after[|after| - 1].phase.answer;
            && |r| == |u|
            && forall i :: 0 <= i < |r| ==> r[i].score == u[i].score && SameRow(table, r[i], next, u[i])
  {
    SpliceKeepsRows(table, at, counts);
    MovedRunsSameAnswer(o, lens, limits, table, run, later, Spliced(table, at, Pieces(table[at], counts)), after);
  }

  /** Nor does a join of every shard into one. */
  lemma JoinChangesNoAnswer(
    o: C.Options, lens: Lens, limits: P.Limits, later: P.Limits, sources: seq<Stored>, joined: Stored,
    run: seq<P.System>, after: seq<P.System>)
    requires AllSound(sources) && Servable(sources) && Sum(RowCounts(sources)) < U64 && joined == JoinAll(sources)
    requires Searchable(o, lens, sources) && P.Accepted(QueryOn(o, lens, limits, sources))
    requires Searchable(o, lens, [joined]) && P.Accepted(QueryOn(o, lens, later, [joined]))
    requires P.IsRun(QueryOn(o, lens, limits, sources), run) && run[|run| - 1].phase.Returned?
    requires P.IsRun(QueryOn(o, lens, later, [joined]), after) && after[|after| - 1].phase.Returned?
    ensures var r, u := run[|run| - 1].phase.answer, after[|after| - 1].phase.answer;
            && |r| == |u|
            && forall i :: 0 <= i < |r| ==> r[i].score == u[i].score && SameRow(sources, r[i], [joined], u[i])
  {
    JoinKeepsRows(sources);
    MovedRunsSameAnswer(o, lens, limits, sources, run, later, [joined], after);
  }

  lemma MovedRunsSameAnswer(
    o: C.Options, lens: Lens, limits: P.Limits, table: seq<Stored>, run: seq<P.System>,
    later: P.Limits, next: seq<Stored>, after: seq<P.System>)
    requires Searchable(o, lens, table) && Searchable(o, lens, next)
    requires AllMoved(Contents(table), Contents(next))
    requires Returns(o, lens, limits, table, run) && Returns(o, lens, later, next, after)
    ensures SameAnswer(o, lens, limits, table, run[|run| - 1].phase.answer,
                       later, next, after[|after| - 1].phase.answer)
  {
    SearchableIsAccepted(o, lens, limits, table);
    SearchableIsAccepted(o, lens, later, next);
    A.RunsGiveAnswers(QueryOn(o, lens, limits, table), run);
    A.RunsGiveAnswers(QueryOn(o, lens, later, next), after);
    MovedRowsSameAnswer(o, lens, limits, table, run[|run| - 1].phase.answer,
                        later, next, after[|after| - 1].phase.answer);
  }

  /** A filtered or label-ordered search that the old table accepts is accepted
      by the new one, so a split never takes an answer away. */
  lemma SplitStaysSearchable(o: C.Options, lens: Lens, table: seq<Stored>, at: nat, counts: seq<u64>)
    requires Searchable(o, lens, table) && at < |table| && Sum(counts) == table[at].index.rows && counts != []
    ensures Searchable(o, lens, Spliced(table, at, Pieces(table[at], counts)))
  {
    SpliceKeepsRows(table, at, counts);
    PiecesLabelled(table[at], counts);
    SplicedMembers(table, at, Pieces(table[at], counts));
  }

  lemma SplicedMembers(table: seq<Stored>, at: nat, pieces: seq<Stored>)
    requires at < |table|
    ensures forall s :: s in Spliced(table, at, pieces) ==> s in table || s in pieces
  {
  }
}
