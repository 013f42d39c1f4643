/** The main results about the distributed scan. */
module ScanTheorems {
  import opened Float32
  import opened TopK
  import opened Ranking
  import opened Collector
  import opened ScanProtocol
  import opened ScanSafety
  import opened ScanRuns

  ghost predicate InvOn(q: Query, s: System, t: System)
    requires Accepted(q)
  {
    Inv(q, s) ==> Inv(q, t)
  }

  lemma NextKeepsInv(q: Query, run: seq<System>, n: nat)
    requires Accepted(q) && IsRun(q, run) && n + 1 < |run|
    ensures InvOn(q, run[n], run[n + 1])
  {
    assert NextAt(q, run, n);
    var step :| Enabled(q, run[n], step) && run[n + 1] == Apply(q, run[n], step);
    if Inv(q, run[n]) { StepKeepsInv(q, run[n], step); }
  }

  lemma {:induction false} InvAlong(q: Query, states: seq<System>)
    requires Accepted(q) && states != [] && Inv(q, states[0])
    requires forall i :: 0 <= i < |states| - 1 ==> InvOn(q, states[i], states[i + 1])
    ensures Inv(q, states[|states| - 1])
  {
    if 1 < |states| {
      InvAlong(q, states[..|states| - 1]);
      assert InvOn(q, states[|states| - 2], states[|states| - 1]);
    }
  }

  lemma RunKeepsInv(q: Query, run: seq<System>, n: nat)
    requires Accepted(q) && IsRun(q, run) && n < |run|
    ensures Inv(q, run[n])
  {
    InitKeepsInv(q);
    forall i | 0 <= i < n ensures InvOn(q, run[i], run[i + 1]) { NextKeepsInv(q, run, i); }
    InvAlong(q, run[..n + 1]);
  }

  // ---- Exactness ----

  lemma {:induction false} EligibleRowsAreAll(q: Query, i: nat, j: nat)
    requires i <= |q.shards| && (i == |q.shards| ==> j == 0) && (i < |q.shards| ==> j <= |q.shards[i].rows|)
    ensures NoDuplicates(EligibleRows(q, i, j))
    ensures forall c :: c in EligibleRows(q, i, j) <==>
              IsEligible(q, c) && (c.shardRank < i || (c.shardRank == i && c.slot < j))
    decreases i, j
  {
    if j > 0 {
      EligibleRowsAreAll(q, i, j - 1);
      var init := EligibleRows(q, i, j - 1);
      var c := CandidateAt(q, i, j - 1);
      assert c !in init;
      if Eligible(q, i, j - 1) {
        NoDuplicatesConcat(init, [c]);
        assert forall d :: d in EligibleRows(q, i, j) <==> d in init || d == c;
      } else {
        assert EligibleRows(q, i, j) == init;
      }
    } else if i > 0 {
      EligibleRowsAreAll(q, i - 1, |q.shards[i - 1].rows|);
    }
  }

  /** What one index over the whole collection would return. */
  ghost function ReferenceTopK(q: Query): seq<HeapCandidate> {
    Leading(Before, EligibleRows(q, |q.shards|, 0), q.options.k)
  }

  lemma AllEligibleAre(q: Query)
    ensures forall c :: c in AllEligible(q) <==> IsEligible(q, c)
  {
    EligibleRowsAreAll(q, |q.shards|, 0);
  }

  lemma ReferenceIsTopK(q: Query)
    ensures IsTopK(Before, ReferenceTopK(q), AllEligible(q), q.options.k)
  {
    var rows := EligibleRows(q, |q.shards|, 0);
    EligibleRowsAreAll(q, |q.shards|, 0);
    assert forall c :: c in Elements(rows) <==> IsEligible(q, c);
    EligibleDistinguishable(q, Elements(rows));
    BeforeOrders();
    LeadingIsTopK(Before, rows, q.options.k);
  }

  /** A row that was scanned, is owed to the query and was neither delivered nor
      queued ranks strictly behind k rows the coordinator already holds. */
  lemma SuppressedIsWorse(q: Query, s: System, i: nat, j: nat)
    requires Accepted(q) && s.phase != Failed && Inv(q, s) && i < |q.shards| && j < s.nodes[i].pos && HasRow(q, i, j)
    requires Eligible(q, i, j) && CandidateAt(q, i, j) !in s.seen && j !in QueueSlots(s.nodes[i].queue)
    ensures |s.collector.heap| == q.options.k
    ensures forall h :: h in s.collector.heap ==> Before(h, CandidateAt(q, i, j))
  {
    assert NodeInv(q, i, s.nodes[i], s.collector.completed[i], s.collector.published, s.seen);
  }

  lemma AllCertified(q: Query, s: System, i: nat)
    requires Accepted(q) && s.phase.Returned? && Inv(q, s) && i < |q.shards|
    ensures s.nodes[i].ended && s.nodes[i].queue == [] && s.nodes[i].pos == |q.shards[i].rows|
  {
    UncertifiedAll(s.collector.completed);
    assert NodeInv(q, i, s.nodes[i], s.collector.completed[i], s.collector.published, s.seen);
  }

  lemma UndeliveredIsWorse(q: Query, s: System, c: HeapCandidate)
    requires Accepted(q) && s.phase.Returned? && Inv(q, s) && IsEligible(q, c) && c !in s.seen
    ensures |s.collector.heap| == q.options.k
    ensures Lt(c.score, s.collector.published)
    ensures forall h :: h in s.collector.heap ==> Before(h, c)
  {
    var i, j := c.shardRank, c.slot;
    AllCertified(q, s, i);
    assert NodeInv(q, i, s.nodes[i], s.collector.completed[i], s.collector.published, s.seen);
    assert QueueSlots(s.nodes[i].queue) == [];
    SuppressedIsWorse(q, s, i, j);
  }

  ghost predicate WorseThanHeap(q: Query, c: State, d: HeapCandidate) {
    |c.heap| == q.options.k && Lt(d.score, c.published) && forall h :: h in c.heap ==> Before(h, d)
  }

  /** What holds when a run returns: everything undelivered is worse than the
      whole heap. */
  lemma FinalFacts(q: Query, run: seq<System>)
    requires Accepted(q) && IsRun(q, run) && run[|run| - 1].phase.Returned?
    ensures var s := run[|run| - 1];
            && HeapInv(q, s.collector, s.seen)
            && s.seen <= AllEligible(q)
            && (forall d :: d in AllEligible(q) && d !in s.seen ==> WorseThanHeap(q, s.collector, d))
            && s.phase.answer == Finish(q.options, s.collector)
  {
    RunKeepsInv(q, run, |run| - 1);
    var s := run[|run| - 1];
    AllEligibleAre(q);
    forall d | d in AllEligible(q) && d !in s.seen ensures WorseThanHeap(q, s.collector, d) {
      UndeliveredIsWorse(q, s, d);
    }
  }

  lemma TopKOfSeenIsReference(q: Query, heap: seq<HeapCandidate>, seen: set<HeapCandidate>)
    requires Accepted(q) && IsTopK(Before, heap, seen, q.options.k) && seen <= AllEligible(q)
    requires forall c :: c in AllEligible(q) && c !in seen ==>
               |heap| == q.options.k && forall h :: h in heap ==> Before(h, c)
    ensures heap == ReferenceTopK(q)
    ensures IsTopK(Before, heap, AllEligible(q), q.options.k)
  {
    var all := AllEligible(q);
    if |heap| == q.options.k { assert heap[q.options.k - 1] in heap; }
    BeforeOrders();
    WorseDoesNotMatter(Before, heap, seen, all, q.options.k);
    ReferenceIsTopK(q);
    TopKUnique(Before, heap, ReferenceTopK(q), all, q.options.k);
  }

  /** At the end the heap is the top k of the whole collection, not just of
      the rows that were delivered. */
  lemma FinalHeapIsTopK(q: Query, run: seq<System>)
    requires Accepted(q) && IsRun(q, run) && run[|run| - 1].phase.Returned?
    ensures run[|run| - 1].collector.heap == ReferenceTopK(q)
    ensures IsTopK(Before, run[|run| - 1].collector.heap, AllEligible(q), q.options.k)
  {
    FinalFacts(q, run);
    TopKOfSeenIsReference(q, run[|run| - 1].collector.heap, run[|run| - 1].seen);
  }

  /** A row the filter admits, with its own score and label, at or above the
      caller's floor if there is one. */
  ghost predicate IsOwed(q: Query, c: HeapCandidate) {
    && c.shardRank < |q.shards| && c.slot < |q.shards[c.shardRank].rows|
    && var row := q.shards[c.shardRank].rows[c.slot];
       && row.admitted && c.score == row.score
       && (q.options.initialFloor.None? || Le(q.options.initialFloor.value, row.score))
       && c.rowLabel == (if q.shards[c.shardRank].labelled then Some(row.rowLabel) else None)
  }

  /** Row `j` of shard `i` is in the answer, or the answer is full of rows that
      rank before it. */
  ghost predicate Competes(q: Query, answer: seq<HeapCandidate>, i: nat, j: nat)
    requires HasRow(q, i, j)
  {
    var c := CandidateAt(q, i, j);
    c in answer || (|answer| == q.options.k && forall h :: h in answer ==> Before(h, c))
  }

  lemma RowsCompete(q: Query)
    ensures forall c :: c in AllEligible(q) ==> IsOwed(q, c)
    ensures forall c :: c in ReferenceTopK(q) ==> IsOwed(q, c)
    ensures forall i: nat, j: nat :: HasRow(q, i, j) ==>
              q.shards[i].rows[j].admitted ==>
              q.options.initialFloor.None? || Le(q.options.initialFloor.value, q.shards[i].rows[j].score) ==>
              CandidateAt(q, i, j) in AllEligible(q) && Competes(q, ReferenceTopK(q), i, j)
  {
    AllEligibleAre(q);
    ReferenceIsTopK(q);
    var top := ReferenceTopK(q);
    forall i: nat, j: nat | HasRow(q, i, j) && Eligible(q, i, j)
      ensures CandidateAt(q, i, j) in AllEligible(q) && Competes(q, top, i, j)
    {
      var c := CandidateAt(q, i, j);
      assert IsEligible(q, c);
      forall h | h in top && c !in top ensures Before(h, c) { var n :| 0 <= n < |top| && top[n] == h; }
    }
  }

  lemma OwedAnswer(q: Query, answer: seq<HeapCandidate>)
    requires forall c :: c in answer ==> IsOwed(q, c)
    ensures forall c :: c in answer ==>
              && HasRow(q, c.shardRank, c.slot)
              && var shard, row := q.shards[c.shardRank], q.shards[c.shardRank].rows[c.slot];
                 && row.admitted && c.score == row.score
                 && (q.options.initialFloor.None? || Le(q.options.initialFloor.value, row.score))
                 && c.rowLabel == if shard.labelled then Some(row.rowLabel) else None
  {
  }

  lemma ExactAnswer(q: Query, run: seq<System>)
    requires Accepted(q) && !q.options.tieComplete
    requires IsRun(q, run) && run[|run| - 1].phase.Returned?
    ensures run[|run| - 1].phase.answer == ReferenceTopK(q)
    ensures |ReferenceTopK(q)| == if q.options.k < |AllEligible(q)| then q.options.k else |AllEligible(q)|
  {
    var s := run[|run| - 1];
    FinalFacts(q, run);
    FinalHeapIsTopK(q, run);
    BeforeOrders();
    SortFixesAscending(Before, s.collector.heap);
    ReferenceIsTopK(q);
    TopKUnique(Before, ReferenceTopK(q), ReferenceTopK(q), AllEligible(q), q.options.k);
  }

  /** Every run that returns, whatever the chunking, the interleaving and the
      delay or loss of intermediate floors, returns the reference answer. */
  lemma SearchIsExact(q: Query, run: seq<System>)
    requires Accepted(q) && !q.options.tieComplete
    requires IsRun(q, run) && run[|run| - 1].phase.Returned?
    ensures run[|run| - 1].phase.answer == ReferenceTopK(q)
    ensures |ReferenceTopK(q)| == if q.options.k < |AllEligible(q)| then q.options.k else |AllEligible(q)|
    ensures forall c :: c in run[|run| - 1].phase.answer ==>
              && HasRow(q, c.shardRank, c.slot)
              && var shard, row := q.shards[c.shardRank], q.shards[c.shardRank].rows[c.slot];
                 && row.admitted && c.score == row.score
                 && (q.options.initialFloor.None? || Le(q.options.initialFloor.value, row.score))
                 && c.rowLabel == if shard.labelled then Some(row.rowLabel) else None
    ensures forall i: nat, j: nat :: HasRow(q, i, j) ==>
              q.shards[i].rows[j].admitted ==>
              q.options.initialFloor.None? || Le(q.options.initialFloor.value, q.shards[i].rows[j].score) ==>
              var answer, c := run[|run| - 1].phase.answer, CandidateAt(q, i, j);
              c in answer || (|answer| == q.options.k && forall h :: h in answer ==> Before(h, c))
  {
    ExactAnswer(q, run);
    RowsCompete(q);
    OwedAnswer(q, run[|run| - 1].phase.answer);
  }

  /** The candidates a tie-complete query still holds after its last prune. */
  lemma TiesOfSeenAreComplete(
    q: Query, heap: seq<HeapCandidate>, ties: seq<HeapCandidate>, published: Score, seen: set<HeapCandidate>)
    requires Accepted(q) && IsTopK(Before, heap, seen, q.options.k) && seen <= AllEligible(q)
    requires TiesInv(ties, published, seen) && forall h :: h in heap ==> Le(published, h.score)
    requires forall c :: c in AllEligible(q) && c !in seen ==> |heap| == q.options.k && Lt(c.score, published)
    ensures var kept := if heap == [] then ties else Prune(ties, heap[|heap| - 1].score);
            && NoDuplicates(kept)
            && (forall d :: d in kept <==> d in AllEligible(q) && (heap != [] ==> Le(heap[|heap| - 1].score, d.score)))
  {
    if heap == [] {
      assert AllEligible(q) == seen && forall d :: d !in seen;
    } else {
      var root := heap[|heap| - 1];
      assert root in heap;
      PruneFilters(ties, root.score);
    }
  }

  lemma TieCompleteAnswer(q: Query, run: seq<System>)
    requires Accepted(q) && q.options.tieComplete
    requires IsRun(q, run) && run[|run| - 1].phase.Returned?
    ensures var answer := run[|run| - 1].phase.answer;
            var top := ReferenceTopK(q);
            && Ascending(Before, answer)
            && (forall c :: c in answer <==>
                  c in AllEligible(q) && (top != [] ==> Le(top[|top| - 1].score, c.score)))
    ensures |AllEligible(q)| <= q.options.k ==>
              forall c :: c in AllEligible(q) ==> c in run[|run| - 1].phase.answer
  {
    var s := run[|run| - 1];
    FinalFacts(q, run);
    FinalHeapIsTopK(q, run);
    TiesOfSeenAreComplete(q, s.collector.heap, s.collector.ties, s.collector.published, s.seen);
    FinishTies(q, s.collector);
    if |AllEligible(q)| <= q.options.k { ShortListReachesAll(q, s.collector.heap); }
  }

  /** A tie-complete search returns, in rank order, exactly the rows whose
      score is numerically at least the k-th best one's. */
  lemma TieCompleteSearchIsExact(q: Query, run: seq<System>)
    requires Accepted(q) && q.options.tieComplete
    requires IsRun(q, run) && run[|run| - 1].phase.Returned?
    ensures var answer := run[|run| - 1].phase.answer;
            var top := ReferenceTopK(q);
            && Ascending(Before, answer)
            && (forall c :: c in answer <==>
                  c in AllEligible(q) && (top != [] ==> Le(top[|top| - 1].score, c.score)))
    ensures |AllEligible(q)| <= q.options.k ==>
              forall c :: c in AllEligible(q) ==> c in run[|run| - 1].phase.answer
    ensures forall c :: c in run[|run| - 1].phase.answer ==>
              && HasRow(q, c.shardRank, c.slot)
              && var shard, row := q.shards[c.shardRank], q.shards[c.shardRank].rows[c.slot];
                 && row.admitted && c.score == row.score
                 && (q.options.initialFloor.None? || Le(q.options.initialFloor.value, row.score))
                 && c.rowLabel == if shard.labelled then Some(row.rowLabel) else None
    ensures forall i: nat, j: nat :: HasRow(q, i, j) ==>
              q.shards[i].rows[j].admitted ==>
              q.options.initialFloor.None? || Le(q.options.initialFloor.value, q.shards[i].rows[j].score) ==>
              CandidateAt(q, i, j) in AllEligible(q)
  {
    TieCompleteAnswer(q, run);
    RowsCompete(q);
    OwedAnswer(q, run[|run| - 1].phase.answer);
  }

  lemma FinishTies(q: Query, c: State)
    requires q.options.tieComplete
    requires var kept := if c.heap == [] then c.ties else Prune(c.ties, c.heap[|c.heap| - 1].score);
             NoDuplicates(kept) && forall d :: d in kept ==> d in AllEligible(q)
    ensures Ascending(Before, Finish(q.options, c))
    ensures var kept := if c.heap == [] then c.ties else Prune(c.ties, c.heap[|c.heap| - 1].score);
            forall d :: d in Finish(q.options, c) <==> d in kept
  {
    SortEligible(q, if c.heap == [] then c.ties else Prune(c.ties, c.heap[|c.heap| - 1].score));
  }

  lemma ShortListReachesAll(q: Query, top: seq<HeapCandidate>)
    requires IsTopK(Before, top, AllEligible(q), q.options.k) && |AllEligible(q)| <= q.options.k
    ensures forall c :: c in AllEligible(q) ==> top != [] && Le(top[|top| - 1].score, c.score)
  {
    BeforeOrders();
    TopKUnique(Before, top, top, AllEligible(q), q.options.k);
    FullListHoldsAll(top, AllEligible(q), q.options.k);
    if top != [] { RootIsLeast(top); }
  }

  lemma SortEligible(q: Query, kept: seq<HeapCandidate>)
    requires NoDuplicates(kept) && forall d :: d in kept ==> d in AllEligible(q)
    ensures Ascending(Before, Sort(Before, kept))
    ensures forall d :: d in Sort(Before, kept) <==> d in kept
  {
    AllEligibleAre(q);
    assert forall d :: d in Elements(kept) ==> IsEligible(q, d);
    EligibleDistinguishable(q, Elements(kept));
    BeforeOrders();
    SortRanks(Before, kept);
  }

  lemma FullListHoldsAll(top: seq<HeapCandidate>, all: set<HeapCandidate>, k: nat)
    requires IsTopK(Before, top, all, k) && |top| == |all|
    ensures forall c :: c in all ==> c in top
  {
    BeforeOrders();
    AscendingCount(top);
    var held := Elements(top);
    assert held <= all;
    if held != all {
      SubsetSmaller(held, all);
    }
  }

  lemma {:induction false} AscendingCount(r: seq<HeapCandidate>)
    requires StrictOrder(Before) && Ascending(Before, r)
    ensures |Elements(r)| == |r|
  {
    if r != [] {
      var init, last := r[..|r| - 1], r[|r| - 1];
      AscendingCount(init);
      assert r == init + [last];
      assert Elements(r) == Elements(init) + {last};
      assert last !in init;
    }
  }

  lemma SubsetSmaller<T>(a: set<T>, b: set<T>)
    requires a <= b && a != b
    ensures |a| < |b|
  {
    assert b == a + (b - a) && a !! (b - a);
    assert b - a != {};
  }

  /** The loop of `stream_query`, fed the events of a run that returns, with
      the closing of certified streams anywhere among them, returns that run's
      answer. */
  lemma LoopReturnsTheAnswer(q: Query, run: seq<System>, cells: seq<Control>, events: seq<Event>)
    requires Accepted(q) && IsRun(q, run) && run[|run| - 1].phase.Returned? && |cells| == |q.shards|
    requires Padding(InitialState(q.options, |q.shards|).completed, events, run[|run| - 1].history)
    ensures forall e :: e in events ==> e.shard < |q.shards|
    ensures Run(q.options, InitialState(q.options, |q.shards|), cells, events).0 == Ok(run[|run| - 1].phase.answer)
  {
    var s, start := run[|run| - 1], InitialState(q.options, |q.shards|);
    RunKeepsInv(q, run, |run| - 1);
    PaddingStays(start.completed, events, s.history, |q.shards|);
    ClosingsChangeNothing(q.options, start, cells, events, s.history);
    RunFollowsReaches(q.options, start, cells, s.history, s.collector);
  }
}
