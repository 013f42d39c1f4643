/** The invariant of the scan, and what one delivered batch does to it. */
module ScanSafety {
  import opened Float32
  import opened TopK
  import opened Ranking
  import opened Collector
  import opened ScanProtocol

  function SlotsOf(m: Payload): seq<nat> {
    if m.Candidates? then m.batch.slots else []
  }

  /** Slots emitted by a shard and not yet taken by the coordinator. */
  function QueueSlots(queue: seq<Payload>): seq<nat> {
    if queue == [] then [] else SlotsOf(queue[0]) + QueueSlots(queue[1..])
  }

  lemma {:induction false} QueueSlotsAppend(queue: seq<Payload>, m: Payload)
    ensures QueueSlots(queue + [m]) == QueueSlots(queue) + SlotsOf(m)
  {
    if queue == [] {
      assert (queue + [m])[1..] == [];
    } else {
      assert (queue + [m])[1..] == queue[1..] + [m];
      QueueSlotsAppend(queue[1..], m);
      assert SlotsOf(queue[0]) + QueueSlots(queue[1..]) + SlotsOf(m)
          == SlotsOf(queue[0]) + (QueueSlots(queue[1..]) + SlotsOf(m));
    }
  }

  ghost predicate GoodMessage(shard: Shard, m: Payload) {
    match m
    case Candidates(b) =>
      b.slots != [] && (forall j :: 0 <= j < |b.slots| ==> b.slots[j] < |shard.rows|) && b == BatchOf(shard, b.slots)
    case Summary(_) => true
    case EmptyPayload => false
  }

  /** Each node's floors trail the published floor and never sink below the caller's. */
  ghost predicate FloorsInv(nd: Node, initial: Score, published: Score) {
    && Le(initial, nd.floorNow) && Le(nd.floorNow, nd.floorCell) && Le(nd.floorCell, published)
    && (nd.cell.FloorUpdate? ==> Le(nd.cell.floor, published))
    && (forall m :: 0 <= m < |nd.flight| && nd.flight[m].FloorUpdate? ==> Le(nd.flight[m].floor, published))
  }

  ghost predicate ChannelInv(nd: Node) {
    && !nd.stop && nd.cell != Stop
    && (!nd.started ==> nd.cell == Start && nd.unread && nd.flight == [] && nd.pos == 0 && nd.queue == [] && !nd.ended)
    && (forall m :: 0 <= m < |nd.flight| ==> nd.flight[m].FloorUpdate?)
    && (nd.started ==> nd.cell == Start ==> !nd.unread)
  }

  ghost predicate QueueInv(shard: Shard, pos: nat, queue: seq<Payload>, ended: bool, done: bool) {
    && pos <= |shard.rows|
    && (forall m :: 0 <= m < |queue| ==> GoodMessage(shard, queue[m]))
    && (forall m :: 0 <= m < |queue| && queue[m].Summary? ==>
          m == |queue| - 1 && ended && (queue[m].completed ==> pos == |shard.rows|))
    && (done ==> ended && queue == [] && pos == |shard.rows|)
    && (ended && !done ==> queue != [] && queue[|queue| - 1].Summary?)
  }

  /** Every scanned row the query is owed has been delivered, is on its way, or
      lies strictly below the published floor; nothing is sent twice. */
  ghost predicate RowsInv(q: Query, i: nat, pos: nat, sent: seq<nat>, published: Score, seen: set<HeapCandidate>)
    requires i < |q.shards|
  {
    && pos <= |q.shards[i].rows|
    && NoDuplicates(sent)
    && (forall j :: j in sent ==> j < pos && Eligible(q, i, j) && CandidateAt(q, i, j) !in seen)
    && (forall j :: 0 <= j < pos && Eligible(q, i, j) ==>
          CandidateAt(q, i, j) in seen || j in sent || Lt(q.shards[i].rows[j].score, published))
  }

  ghost predicate NodeInv(q: Query, i: nat, nd: Node, done: bool, published: Score, seen: set<HeapCandidate>)
    requires i < |q.shards|
  {
    && FloorsInv(nd, q.options.StartFloor(), published)
    && ChannelInv(nd)
    && QueueInv(q.shards[i], nd.pos, nd.queue, nd.ended, done)
    && RowsInv(q, i, nd.pos, QueueSlots(nd.queue), published, seen)
  }

  /** The heap is the top k of what has been seen, and the published floor is
      the caller's until the heap fills and never above its root after. */
  ghost predicate HeapInv(q: Query, c: State, seen: set<HeapCandidate>)
    requires Accepted(q)
  {
    && IsTopK(Before, c.heap, seen, q.options.k)
    && Le(q.options.StartFloor(), c.published)
    && (c.published == q.options.StartFloor() || |c.heap| == q.options.k)
    && (forall h :: h in c.heap ==> Le(c.published, h.score))
    && (q.options.tieComplete ==> TiesInv(c.ties, c.published, seen))
  }

  ghost predicate TiesInv(ties: seq<HeapCandidate>, published: Score, seen: set<HeapCandidate>) {
    && NoDuplicates(ties)
    && (forall c :: c in ties ==> c in seen)
    && (forall c :: c in seen && Le(published, c.score) ==> c in ties)
  }

  function Uncertified(completed: seq<bool>): nat {
    if completed == [] then 0 else (if completed[0] then 0 else 1) + Uncertified(completed[1..])
  }

  ghost predicate SeenInv(q: Query, nodes: seq<Node>, seen: set<HeapCandidate>)
    requires |nodes| == |q.shards|
  {
    forall c :: c in seen ==> IsEligible(q, c) && c.slot < nodes[c.shardRank].pos
  }

  ghost predicate NodesInv(q: Query, nodes: seq<Node>, completed: seq<bool>, published: Score, seen: set<HeapCandidate>)
    requires |nodes| == |completed| == |q.shards|
  {
    forall i :: 0 <= i < |nodes| ==> NodeInv(q, i, nodes[i], completed[i], published, seen)
  }

  /** Streams are opened in shard order, all of them before any event is taken. */
  ghost predicate StreamsInv(nodes: seq<Node>, streams: nat, completed: seq<bool>)
    requires |nodes| == |completed|
  {
    && (forall i :: 0 <= i < |nodes| ==> (nodes[i].started <==> i < streams))
    && (streams < |nodes| ==> forall i :: 0 <= i < |nodes| ==> !completed[i])
  }

  ghost predicate HistoryInv(q: Query, history: seq<Event>, c: State)
    requires Accepted(q)
  {
    && Reaches(q.options, InitialState(q.options, |q.shards|), history, c)
    && (forall e :: e in history ==> e.shard < |q.shards|)
  }

  ghost predicate RunningInv(q: Query, s: System)
    requires Accepted(q)
  {
    && Shaped(q, s)
    && StreamsInv(s.nodes, s.streams, s.collector.completed)
    && SeenInv(q, s.nodes, s.seen)
    && NodesInv(q, s.nodes, s.collector.completed, s.collector.published, s.seen)
    && HeapInv(q, s.collector, s.seen)
    && s.collector.remaining == Uncertified(s.collector.completed)
    && HistoryInv(q, s.history, s.collector)
  }

  // ---- The collector's step ----

  lemma EligibleBatchCandidates(q: Query, i: nat, b: Batch, n: nat)
    requires Accepted(q) && i < |q.shards| && GoodMessage(q.shards[i], Candidates(b)) && n <= |b.slots|
    ensures Rankable(q.options, b) && NanFree(b, |b.scores|) && |b.scores| == |b.slots|
    ensures |ToCandidates(q.options, i, b, n)| == n
    ensures forall j :: 0 <= j < n ==> ToCandidate(q.options, i, b, j) == CandidateAt(q, i, b.slots[j])
    ensures forall j :: 0 <= j < n ==> ToCandidates(q.options, i, b, n)[j] == CandidateAt(q, i, b.slots[j])
  {
    if n > 0 { EligibleBatchCandidates(q, i, b, n - 1); }
  }

  lemma OfferEligible(q: Query, heap: seq<HeapCandidate>, seen: set<HeapCandidate>, c: HeapCandidate, floor: Score)
    requires Accepted(q) && IsTopK(Before, heap, seen, q.options.k)
    requires forall d :: d in seen + {c} ==> IsEligible(q, d)
    requires c !in seen
    requires forall h :: h in heap ==> Le(floor, h.score)
    requires |heap| < q.options.k ==> floor == q.options.StartFloor()
    ensures var r := Offer(Before, heap, c, q.options.k);
            && IsTopK(Before, r, seen + {c}, q.options.k)
            && (forall h :: h in r ==> Le(floor, h.score))
            && |heap| <= |r|
  {
    BeforeOrders();
    EligibleDistinguishable(q, seen + {c});
    OfferKeepsTopK(Before, heap, seen, c, q.options.k);
    assert IsEligible(q, c);
    OfferKeepsFloor(heap, c, q.options.k, floor);
  }

  /** A batch not yet delivered: distinct slots, all owed to the query. */
  ghost predicate FreshBatch(q: Query, i: nat, b: Batch, seen: set<HeapCandidate>) {
    && i < |q.shards| && GoodMessage(q.shards[i], Candidates(b)) && NoDuplicates(b.slots)
    && forall j :: 0 <= j < |b.slots| ==> Eligible(q, i, b.slots[j]) && CandidateAt(q, i, b.slots[j]) !in seen
  }

  /** The candidates in the first `n` entries of a batch. */
  ghost function Arrived(q: Query, i: nat, b: Batch, n: nat): set<HeapCandidate>
    requires i < |q.shards| && GoodMessage(q.shards[i], Candidates(b)) && n <= |b.slots|
  {
    if n == 0 then {} else Arrived(q, i, b, n - 1) + {CandidateAt(q, i, b.slots[n - 1])}
  }

  lemma {:induction false} ArrivedMembers(q: Query, i: nat, b: Batch, n: nat)
    requires i < |q.shards| && GoodMessage(q.shards[i], Candidates(b)) && n <= |b.slots|
    ensures forall d :: d in Arrived(q, i, b, n) ==>
              d.shardRank == i && HasRow(q, i, d.slot) && d == CandidateAt(q, i, d.slot) && d.slot in b.slots[..n]
    ensures forall x :: 0 <= x < n ==> CandidateAt(q, i, b.slots[x]) in Arrived(q, i, b, n)
  {
    if n > 0 {
      ArrivedMembers(q, i, b, n - 1);
      assert b.slots[..n] == b.slots[..n - 1] + [b.slots[n - 1]];
    }
  }

  lemma ArrivedGrows(q: Query, i: nat, b: Batch, n: nat, seen: set<HeapCandidate>)
    requires Accepted(q) && FreshBatch(q, i, b, seen) && 0 < n <= |b.slots|
    ensures var c := CandidateAt(q, i, b.slots[n - 1]);
            && seen + Arrived(q, i, b, n) == seen + Arrived(q, i, b, n - 1) + {c}
            && c !in seen + Arrived(q, i, b, n - 1)
    ensures forall d :: d in Arrived(q, i, b, n) ==> IsEligible(q, d)
  {
    ArrivedMembers(q, i, b, n);
    ArrivedMembers(q, i, b, n - 1);
    var earlier := b.slots[..n - 1];
    assert forall x :: 0 <= x < |earlier| ==> earlier[x] != b.slots[n - 1];
    forall d | d in Arrived(q, i, b, n) ensures IsEligible(q, d) {
      var x :| 0 <= x < n && b.slots[..n][x] == d.slot;
      assert b.slots[x] == d.slot;
    }
  }

  lemma OfferNext(
    q: Query, heap: seq<HeapCandidate>, seen: set<HeapCandidate>, i: nat, b: Batch, n: nat, floor: Score)
    requires Accepted(q) && FreshBatch(q, i, b, seen) && 0 < n <= |b.slots|
    requires forall c :: c in seen ==> IsEligible(q, c)
    requires IsTopK(Before, heap, seen + Arrived(q, i, b, n - 1), q.options.k)
    requires forall h :: h in heap ==> Le(floor, h.score)
    requires |heap| < q.options.k ==> floor == q.options.StartFloor()
    ensures var r := Offer(Before, heap, CandidateAt(q, i, b.slots[n - 1]), q.options.k);
            && IsTopK(Before, r, seen + Arrived(q, i, b, n), q.options.k)
            && (forall h :: h in r ==> Le(floor, h.score))
            && |heap| <= |r|
  {
    ArrivedGrows(q, i, b, n, seen);
    OfferEligible(q, heap, seen + Arrived(q, i, b, n - 1), CandidateAt(q, i, b.slots[n - 1]), floor);
  }

  lemma {:induction false} OfferAllKeepsTopK(
    q: Query, heap: seq<HeapCandidate>, seen: set<HeapCandidate>, i: nat, b: Batch, n: nat, floor: Score)
    requires Accepted(q) && FreshBatch(q, i, b, seen) && n <= |b.slots|
    requires Rankable(q.options, b) && NanFree(b, |b.scores|) && |b.scores| == |b.slots|
    requires forall c :: c in seen ==> IsEligible(q, c)
    requires IsTopK(Before, heap, seen, q.options.k)
    requires forall h :: h in heap ==> Le(floor, h.score)
    requires |heap| < q.options.k ==> floor == q.options.StartFloor()
    ensures var r := OfferAll(heap, q.options, i, b, n);
            && IsTopK(Before, r, seen + Arrived(q, i, b, n), q.options.k)
            && (forall h :: h in r ==> Le(floor, h.score))
            && |heap| <= |r|
  {
    if n == 0 {
      assert seen + Arrived(q, i, b, 0) == seen;
    } else {
      OfferAllKeepsTopK(q, heap, seen, i, b, n - 1, floor);
      OfferNext(q, OfferAll(heap, q.options, i, b, n - 1), seen, i, b, n, floor);
      OfferAllUnfolds(q, heap, i, b, n);
    }
  }

  lemma OfferAllUnfolds(q: Query, heap: seq<HeapCandidate>, i: nat, b: Batch, n: nat)
    requires Accepted(q) && i < |q.shards| && GoodMessage(q.shards[i], Candidates(b)) && 0 < n <= |b.slots|
    requires Rankable(q.options, b) && NanFree(b, |b.scores|) && |b.scores| == |b.slots|
    ensures OfferAll(heap, q.options, i, b, n)
         == Offer(Before, OfferAll(heap, q.options, i, b, n - 1), CandidateAt(q, i, b.slots[n - 1]), q.options.k)
  {
    EligibleBatchCandidates(q, i, b, n);
    assert ToCandidate(q.options, i, b, n - 1) == CandidateAt(q, i, b.slots[n - 1]);
  }

  /** A candidate that gets into a full heap outranks its root, so no floor
      under the heap is ever crossed. */
  lemma OfferKeepsFloor(heap: seq<HeapCandidate>, c: HeapCandidate, k: nat, floor: Score)
    requires 1 <= k && |heap| <= k
    requires forall h :: h in heap ==> Le(floor, h.score)
    requires |heap| < k ==> Le(floor, c.score)
    ensures forall h :: h in Offer(Before, heap, c, k) ==> Le(floor, h.score)
    ensures |heap| <= |Offer(Before, heap, c, k)|
  {
    if |heap| < k {
      InsertMembers(c, heap);
    } else {
      InsertMembers(c, heap[..k - 1]);
      BeforeIsStrictOrder(c, heap[k - 1], c);
    }
  }

  lemma InsertMembers(c: HeapCandidate, s: seq<HeapCandidate>)
    ensures |Insert(Before, c, s)| == |s| + 1
    ensures forall d :: d in Insert(Before, c, s) ==> d == c || d in s
  {
  }

  lemma {:induction false} PruneFilters(ties: seq<HeapCandidate>, floor: Score)
    requires NoDuplicates(ties)
    ensures NoDuplicates(Prune(ties, floor))
    ensures forall c :: c in Prune(ties, floor) <==> c in ties && Le(floor, c.score)
  {
    if ties != [] {
      assert forall j :: 0 <= j < |ties| - 1 ==> ties[1..][j] == ties[j + 1];
      PruneFilters(ties[1..], floor);
      assert ties[0] !in ties[1..];
      assert forall c :: c in ties <==> c == ties[0] || c in ties[1..];
    }
  }

  lemma DeliveredIsArrived(q: Query, i: nat, b: Batch)
    requires Accepted(q) && i < |q.shards| && GoodMessage(q.shards[i], Candidates(b))
    ensures Delivered(q.options, i, Candidates(b)) == Arrived(q, i, b, |b.slots|)
  {
    EligibleBatchCandidates(q, i, b, |b.slots|);
    ArrivedMembers(q, i, b, |b.slots|);
    assert b.slots[..|b.slots|] == b.slots;
    var cs := ToCandidates(q.options, i, b, |b.slots|);
    forall d | d in Arrived(q, i, b, |b.slots|) ensures d in cs {
      var x :| 0 <= x < |b.slots| && b.slots[x] == d.slot;
      assert cs[x] == d;
    }
  }

  lemma TiesGrow(ties: seq<HeapCandidate>, cs: seq<HeapCandidate>, published: Score, seen: set<HeapCandidate>)
    requires TiesInv(ties, published, seen) && NoDuplicates(cs)
    requires forall x :: 0 <= x < |cs| ==> cs[x] !in seen
    ensures TiesInv(ties + cs, published, seen + Elements(cs))
  {
    assert forall x :: 0 <= x < |ties| ==> ties[x] in ties;
    assert forall d :: d in ties + cs <==> d in ties || d in cs;
  }

  lemma BatchKeepsTies(q: Query, ties: seq<HeapCandidate>, published: Score, seen: set<HeapCandidate>, i: nat, b: Batch)
    requires Accepted(q) && FreshBatch(q, i, b, seen) && TiesInv(ties, published, seen)
    requires Rankable(q.options, b) && NanFree(b, |b.scores|) && |b.scores| == |b.slots|
    ensures TiesInv(ties + ToCandidates(q.options, i, b, |b.slots|), published, seen + Arrived(q, i, b, |b.slots|))
  {
    EligibleBatchCandidates(q, i, b, |b.slots|);
    DeliveredIsArrived(q, i, b);
    var cs := ToCandidates(q.options, i, b, |b.slots|);
    forall x, y | 0 <= x < y < |cs| ensures cs[x] != cs[y] { assert b.slots[x] != b.slots[y]; }
    TiesGrow(ties, cs, published, seen);
  }

  lemma RaiseKeepsTies(ties: seq<HeapCandidate>, published: Score, floor: Score, seen: set<HeapCandidate>)
    requires TiesInv(ties, published, seen) && Le(published, floor)
    ensures TiesInv(Prune(ties, floor), floor, seen)
  {
    PruneFilters(ties, floor);
  }

  lemma RootIsLeast(heap: seq<HeapCandidate>)
    requires Ascending(Before, heap) && heap != []
    ensures forall h :: h in heap ==> Le(heap[|heap| - 1].score, h.score)
  {
    forall h | h in heap ensures Le(heap[|heap| - 1].score, h.score) {
      var j :| 0 <= j < |heap| && heap[j] == h;
      if j < |heap| - 1 { BeforeIsStrictOrder(h, heap[|heap| - 1], h); }
    }
  }

  /** Publishing the root of a full heap, or leaving the floor where it was. */
  lemma PublishKeepsHeapInv(
    q: Query, c: State, heap: seq<HeapCandidate>, ties: seq<HeapCandidate>, now: set<HeapCandidate>)
    requires Accepted(q) && IsTopK(Before, heap, now, q.options.k)
    requires Le(q.options.StartFloor(), c.published)
    requires c.published == q.options.StartFloor() || |heap| == q.options.k
    requires forall h :: h in heap ==> Le(c.published, h.score)
    requires q.options.tieComplete ==> TiesInv(ties, c.published, now)
    ensures var out := PublishRoot(q.options, c, heap, ties);
            && HeapInv(q, out.state, now)
            && Le(c.published, out.state.published)
            && (!out.raised ==> out.state.published == c.published)
  {
    if |heap| == q.options.k {
      RootIsLeast(heap);
      var root := heap[q.options.k - 1].score;
      if q.options.tieComplete && Lt(c.published, root) { RaiseKeepsTies(ties, c.published, root, now); }
    }
  }

  lemma TakeGoodBatch(o: Options, c: State, i: nat, b: Batch)
    requires 1 <= o.k && i < |c.completed| && !c.completed[i] && Rankable(o, b) && NanFree(b, |b.scores|)
    ensures var heap := OfferAll(c.heap, o, i, b, |b.scores|);
            var ties := if o.tieComplete then c.ties + ToCandidates(o, i, b, |b.scores|) else c.ties;
            TakeBatch(o, c, i, b) == PublishRoot(o, c, heap, ties)
  {
  }

  lemma BatchKeepsHeapInv(q: Query, c: State, seen: set<HeapCandidate>, i: nat, b: Batch)
    requires Accepted(q) && HeapInv(q, c, seen) && FreshBatch(q, i, b, seen) && i < |c.completed| && !c.completed[i]
    requires forall d :: d in seen ==> IsEligible(q, d)
    ensures var out := TakeBatch(q.options, c, i, b);
            && out.Continue?
            && HeapInv(q, out.state, seen + Arrived(q, i, b, |b.slots|))
            && Le(c.published, out.state.published)
            && (!out.raised ==> out.state.published == c.published)
            && out.state.completed == c.completed && out.state.remaining == c.remaining
  {
    var n := |b.slots|;
    EligibleBatchCandidates(q, i, b, n);
    OfferAllKeepsTopK(q, c.heap, seen, i, b, n, c.published);
    var heap := OfferAll(c.heap, q.options, i, b, n);
    var ties := if q.options.tieComplete then c.ties + ToCandidates(q.options, i, b, n) else c.ties;
    if q.options.tieComplete { BatchKeepsTies(q, c.ties, c.published, seen, i, b); }
    PublishKeepsHeapInv(q, c, heap, ties, seen + Arrived(q, i, b, n));
    TakeGoodBatch(q.options, c, i, b);
  }
}
