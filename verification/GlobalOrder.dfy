/** A query's answer as a function of the collection's rows in table order:
    where the shard boundaries fall does not matter. */
module GlobalOrder {
  import opened Float32
  import opened TopK
  import opened Flatten
  import opened Ranking
  import opened Collector
  import opened ScanProtocol
  import opened ScanTheorems
  import opened AnswerOrder

  function RowParts(shards: seq<Shard>): seq<seq<ScoredRow>> {
    seq(|shards|, i requires 0 <= i < |shards| => shards[i].rows)
  }

  /** The rows of a table, shard after shard. */
  function TableRows(shards: seq<Shard>): seq<ScoredRow> {
    Flat(RowParts(shards))
  }

  /** A row as a candidate of one index that holds the whole collection. */
  function Global(o: Options, row: ScoredRow, p: nat): HeapCandidate {
    HeapCandidate(row.score, 0, p, None, if o.stableLabelOrder then Some(row.rowLabel) else None)
  }

  function ToGlobal(q: Query, c: HeapCandidate): HeapCandidate {
    if c.shardRank < |q.shards|
    then HeapCandidate(c.score, 0, Position(RowParts(q.shards), c.shardRank, c.slot), None, c.labelOrderKey) else c
  }

  /** The eligible rows of one index over the whole collection. */
  ghost function GlobalRows(o: Options, flat: seq<ScoredRow>): set<HeapCandidate> {
    set p | 0 <= p < |flat| && flat[p].admitted && (o.initialFloor.None? || Le(o.initialFloor.value, flat[p].score))
      :: Global(o, flat[p], p)
  }

  lemma ToGlobalIsGlobal(q: Query, c: HeapCandidate)
    requires IsEligible(q, c)
    ensures var p := Position(RowParts(q.shards), c.shardRank, c.slot);
            && p < |TableRows(q.shards)| && ToGlobal(q, c) == Global(q.options, TableRows(q.shards)[p], p)
            && ToGlobal(q, c) in GlobalRows(q.options, TableRows(q.shards))
  {
    ElementAt(RowParts(q.shards), c.shardRank, c.slot);
  }

  lemma GlobalComesFrom(q: Query, g: HeapCandidate) returns (c: HeapCandidate)
    requires g in GlobalRows(q.options, TableRows(q.shards))
    ensures IsEligible(q, c) && ToGlobal(q, c) == g
  {
    var flat := TableRows(q.shards);
    var o := q.options;
    var p :| 0 <= p < |flat| && flat[p].admitted && (o.initialFloor.None? || Le(o.initialFloor.value, flat[p].score))
             && g == Global(q.options, flat[p], p);
    var i, j := Locate(RowParts(q.shards), p);
    ElementAt(RowParts(q.shards), i, j);
    c := CandidateAt(q, i, j);
  }

  lemma ToGlobalKeepsOrder(q: Query, a: HeapCandidate, b: HeapCandidate)
    requires IsEligible(q, a) && IsEligible(q, b) && Before(a, b)
    ensures Before(ToGlobal(q, a), ToGlobal(q, b))
  {
    if a.shardRank < b.shardRank || (a.shardRank == b.shardRank && a.slot < b.slot) {
      PositionsFollowParts(RowParts(q.shards), a.shardRank, a.slot, b.shardRank, b.slot);
    }
  }

  /** A list of candidates as the single index would report it. */
  function Globally(q: Query, r: seq<HeapCandidate>): seq<HeapCandidate> {
    Map(GlobalMap(q), r)
  }

  function GlobalMap(q: Query): HeapCandidate -> HeapCandidate {
    c => ToGlobal(q, c)
  }

  /** The sharded collection is the single index under other names. */
  lemma GlobalRenames(q: Query)
    ensures Renames(q, GlobalMap(q), GlobalRows(q.options, TableRows(q.shards)))
  {
    AllEligibleAre(q);
    var all, global := AllEligible(q), GlobalRows(q.options, TableRows(q.shards));
    forall c | c in all ensures GlobalMap(q)(c) in global && GlobalMap(q)(c).score == c.score {
      ToGlobalIsGlobal(q, c);
    }
    forall g | g in global ensures exists c :: c in all && GlobalMap(q)(c) == g {
      var c := GlobalComesFrom(q, g);
      assert c in all && GlobalMap(q)(c) == g;
    }
    forall a, b | a in all && b in all && Before(a, b) ensures Before(GlobalMap(q)(a), GlobalMap(q)(b)) {
      ToGlobalKeepsOrder(q, a, b);
    }
  }

  /** The reference answer over shards is the top k of one index that holds the
      whole collection. */
  lemma ReferenceIsGlobal(q: Query)
    ensures IsTopK(Before, Globally(q, ReferenceTopK(q)), GlobalRows(q.options, TableRows(q.shards)), q.options.k)
  {
    GlobalRenames(q);
    RenamedReference(q, GlobalMap(q), GlobalRows(q.options, TableRows(q.shards)));
  }

  // ---- Answers that do not see the shard boundaries ----

  /** Row by row, the two tables hold rows the query cannot tell apart. */
  ghost predicate SameRows(o: Options, a: seq<ScoredRow>, b: seq<ScoredRow>) {
    && |a| == |b|
    && forall p :: 0 <= p < |a| ==>
         && a[p].score == b[p].score && a[p].admitted == b[p].admitted
         && (o.stableLabelOrder ==> a[p].rowLabel == b[p].rowLabel)
  }

  lemma SameGlobalRows(o: Options, a: seq<ScoredRow>, b: seq<ScoredRow>)
    requires SameRows(o, a, b)
    ensures GlobalRows(o, a) == GlobalRows(o, b)
  {
    assert forall p :: 0 <= p < |a| ==> Global(o, a[p], p) == Global(o, b[p], p);
    forall g ensures g in GlobalRows(o, a) <==> g in GlobalRows(o, b) { }
  }

  /** Same rows in table order, same answer: the scores and the rows' places
      in the table, position by position. */
  lemma AnswerIgnoresBoundaries(q: Query, t: Query, r: seq<HeapCandidate>, u: seq<HeapCandidate>)
    requires q.options == t.options && SameRows(q.options, TableRows(q.shards), TableRows(t.shards))
    requires IsAnswer(q, r) && IsAnswer(t, u)
    ensures Globally(q, r) == Globally(t, u)
  {
    SameGlobalRows(q.options, TableRows(q.shards), TableRows(t.shards));
    GlobalRenames(q);
    GlobalRenames(t);
    AnswersCorrespond(q, t, GlobalMap(q), GlobalMap(t), GlobalRows(q.options, TableRows(q.shards)), r, u);
  }
}
