/** Every step of the scan keeps its invariant. */
module ScanRuns {
  import opened Float32
  import opened TopK
  import opened Ranking
  import opened Collector
  import opened ScanProtocol
  import opened ScanSafety

  ghost predicate Inv(q: Query, s: System)
    requires Accepted(q)
  {
    Shaped(q, s) && (s.phase != Failed ==>
      && RunningInv(q, s)
      && (s.phase == Running ==> 0 < s.collector.remaining)
      && (s.phase.Returned? ==> s.collector.remaining == 0 && s.phase.answer == Finish(q.options, s.collector)))
  }

  lemma {:induction false} UncertifiedAll(completed: seq<bool>)
    ensures Uncertified(completed) == 0 <==> forall i :: 0 <= i < |completed| ==> completed[i]
    ensures (forall i :: 0 <= i < |completed| ==> !completed[i]) ==> Uncertified(completed) == |completed|
  {
    if completed != [] {
      UncertifiedAll(completed[1..]);
      assert forall i :: 0 < i < |completed| ==> completed[i] == completed[1..][i - 1];
    }
  }

  lemma {:induction false} UncertifiedDrops(completed: seq<bool>, i: nat)
    requires i < |completed| && !completed[i]
    ensures Uncertified(completed[i := true]) == Uncertified(completed) - 1
  {
    if i == 0 {
      assert completed[0 := true][1..] == completed[1..];
    } else {
      assert completed[i := true][1..] == completed[1..][i - 1 := true];
      UncertifiedDrops(completed[1..], i - 1);
    }
  }

  lemma InitKeepsInv(q: Query)
    requires Accepted(q)
    ensures Inv(q, Init(q))
  {
    var s := Init(q);
    UncertifiedAll(s.collector.completed);
  }

  // ---- Steps of one node ----

  lemma SendKeepsNode(q: Query, i: nat, nd: Node, done: bool, published: Score, seen: set<HeapCandidate>)
    requires i < |q.shards| && NodeInv(q, i, nd, done, published, seen) && nd.started && nd.unread
    ensures NodeInv(q, i, nd.(flight := nd.flight + [nd.cell], unread := false), done, published, seen)
  {
  }

  lemma PumpKeepsNode(q: Query, i: nat, nd: Node, done: bool, published: Score, seen: set<HeapCandidate>)
    requires i < |q.shards| && NodeInv(q, i, nd, done, published, seen) && nd.started && nd.flight != []
    ensures nd.flight[0].FloorUpdate?
    ensures NodeInv(q, i, nd.(flight := nd.flight[1..], floorCell := Raised(nd.floorCell, nd.flight[0].floor)),
                    done, published, seen)
  {
  }

  lemma NoDuplicatesConcat<T>(a: seq<T>, b: seq<T>)
    requires NoDuplicates(a) && NoDuplicates(b)
    requires forall x :: x in a ==> x !in b
    ensures NoDuplicates(a + b)
  {
    assert forall i :: 0 <= i < |a| ==> a[i] in a;
  }

  lemma ScanKeepsRows(
    q: Query, i: nat, pos: nat, sent: seq<nat>, published: Score, seen: set<HeapCandidate>, hi: nat, floor: Score,
    order: seq<nat>)
    requires i < |q.shards| && RowsInv(q, i, pos, sent, published, seen) && pos < hi
    requires Le(q.options.StartFloor(), floor) && Le(floor, published)
    requires EmitsChunk(q.shards[i], pos, hi, floor, order)
    requires forall c :: c in seen && c.shardRank == i ==> c.slot < pos
    ensures RowsInv(q, i, hi, sent + order, published, seen)
  {
    NoDuplicatesConcat(sent, order);
    assert forall j :: j in sent + order <==> j in sent || j in order;
    forall j | j in order ensures CandidateAt(q, i, j) !in seen {
      assert CandidateAt(q, i, j).shardRank == i;
    }
  }

  lemma ScanKeepsQueue(shard: Shard, pos: nat, queue: seq<Payload>, done: bool, hi: nat, floor: Score, order: seq<nat>)
    requires QueueInv(shard, pos, queue, false, done) && EmitsChunk(shard, pos, hi, floor, order) && pos <= hi
    ensures forall j :: 0 <= j < |order| ==> order[j] < |shard.rows|
    ensures var emitted := if order == [] then [] else [Candidates(BatchOf(shard, order))];
            && QueueInv(shard, hi, queue + emitted, false, done)
            && QueueSlots(queue + emitted) == QueueSlots(queue) + order
  {
    assert forall j :: 0 <= j < |order| ==> order[j] in order;
    if order == [] {
      assert queue + [] == queue && QueueSlots(queue) + order == QueueSlots(queue);
    } else {
      QueueSlotsAppend(queue, Candidates(BatchOf(shard, order)));
    }
  }

  lemma ScanKeepsNode(
    q: Query, i: nat, nd: Node, done: bool, published: Score, seen: set<HeapCandidate>, count: nat, order: seq<nat>)
    requires i < |q.shards| && NodeInv(q, i, nd, done, published, seen) && nd.started && !nd.ended
    requires 1 <= count && EmitsChunk(q.shards[i], nd.pos, nd.pos + count, Polled(nd), order)
    requires forall c :: c in seen && c.shardRank == i ==> c.slot < nd.pos
    ensures forall j :: 0 <= j < |order| ==> order[j] < |q.shards[i].rows|
    ensures var emitted := if order == [] then [] else [Candidates(BatchOf(q.shards[i], order))];
            NodeInv(q, i, nd.(floorNow := Polled(nd), pos := nd.pos + count, queue := nd.queue + emitted),
                    done, published, seen)
  {
    ScanKeepsQueue(q.shards[i], nd.pos, nd.queue, done, nd.pos + count, Polled(nd), order);
    ScanKeepsRows(q, i, nd.pos, QueueSlots(nd.queue), published, seen, nd.pos + count, Polled(nd), order);
  }

  lemma SummaryKeepsNode(q: Query, i: nat, nd: Node, published: Score, seen: set<HeapCandidate>, done: bool)
    requires i < |q.shards| && NodeInv(q, i, nd, false, published, seen) && nd.started && !nd.ended
    requires done ==> nd.pos == |q.shards[i].rows|
    ensures NodeInv(q, i, nd.(ended := true, queue := nd.queue + [Summary(done)]), false, published, seen)
  {
    QueueSlotsAppend(nd.queue, Summary(done));
    var t := nd.(ended := true, queue := nd.queue + [Summary(done)]);
    assert QueueSlots(t.queue) == QueueSlots(nd.queue);
  }

  // ---- Steps of the coordinator ----

  lemma HeadIsFresh(q: Query, i: nat, nd: Node, b: Batch, published: Score, seen: set<HeapCandidate>)
    requires Accepted(q) && i < |q.shards| && NodeInv(q, i, nd, false, published, seen)
    requires nd.queue != [] && nd.queue[0] == Candidates(b)
    ensures FreshBatch(q, i, b, seen)
  {
    var slots := QueueSlots(nd.queue);
    assert slots == b.slots + QueueSlots(nd.queue[1..]);
    assert GoodMessage(q.shards[i], nd.queue[0]);
    assert forall x :: 0 <= x < |b.slots| ==> b.slots[x] == slots[x] && slots[x] in slots;
  }

  lemma NoDuplicatesSplit<T>(a: seq<T>, b: seq<T>)
    requires NoDuplicates(a + b)
    ensures NoDuplicates(b) && forall x :: x in b ==> x !in a
  {
    var s := a + b;
    forall i, j | 0 <= i < j < |b| ensures b[i] != b[j] { assert s[|a| + i] != s[|a| + j]; }
    forall x | x in b ensures x !in a {
      var j :| 0 <= j < |b| && b[j] == x;
      forall i | 0 <= i < |a| ensures a[i] != x { assert s[i] != s[|a| + j]; }
    }
  }

  /** A row of shard `i` arrived exactly when its slot is in the batch. */
  lemma ArrivedSlots(q: Query, i: nat, b: Batch, j: nat)
    requires i < |q.shards| && GoodMessage(q.shards[i], Candidates(b)) && HasRow(q, i, j)
    ensures CandidateAt(q, i, j) in Arrived(q, i, b, |b.slots|) <==> j in b.slots
  {
    ArrivedMembers(q, i, b, |b.slots|);
    assert b.slots[..|b.slots|] == b.slots;
  }

  lemma DeliveryKeepsSenderRows(
    q: Query, i: nat, pos: nat, rest: seq<nat>, b: Batch, published: Score, higher: Score, seen: set<HeapCandidate>)
    requires Accepted(q) && i < |q.shards| && FreshBatch(q, i, b, seen) && Le(published, higher)
    requires RowsInv(q, i, pos, b.slots + rest, published, seen)
    ensures RowsInv(q, i, pos, rest, higher, seen + Arrived(q, i, b, |b.slots|))
  {
    NoDuplicatesSplit(b.slots, rest);
    var now := seen + Arrived(q, i, b, |b.slots|);
    forall j | j in rest ensures j < pos && Eligible(q, i, j) && CandidateAt(q, i, j) !in now {
      assert j in b.slots + rest;
      ArrivedSlots(q, i, b, j);
    }
    forall j: nat | j < pos && Eligible(q, i, j)
      ensures CandidateAt(q, i, j) in now || j in rest || Lt(q.shards[i].rows[j].score, higher)
    {
      assert j in b.slots + rest ==> j in b.slots || j in rest;
      ArrivedSlots(q, i, b, j);
    }
  }

  /** The sender's node after its head message has been folded into `seen`. */
  lemma DeliveryKeepsSender(
    q: Query, i: nat, nd: Node, b: Batch, published: Score, higher: Score, seen: set<HeapCandidate>)
    requires Accepted(q) && i < |q.shards| && NodeInv(q, i, nd, false, published, seen) && Le(published, higher)
    requires nd.queue != [] && nd.queue[0] == Candidates(b)
    ensures FreshBatch(q, i, b, seen)
    ensures NodeInv(q, i, nd.(queue := nd.queue[1..]), false, higher, seen + Arrived(q, i, b, |b.slots|))
  {
    HeadIsFresh(q, i, nd, b, published, seen);
    var rest := nd.queue[1..];
    assert QueueSlots(nd.queue) == b.slots + QueueSlots(rest);
    DeliveryKeepsSenderRows(q, i, nd.pos, QueueSlots(rest), b, published, higher, seen);
    assert forall m :: 0 <= m < |rest| ==> rest[m] == nd.queue[m + 1];
  }

  /** Every other node only sees the floor rise and foreign rows arrive. */
  lemma DeliveryKeepsOthers(
    q: Query, k: nat, nd: Node, done: bool, published: Score, higher: Score, seen: set<HeapCandidate>,
    i: nat, b: Batch)
    requires Accepted(q) && k < |q.shards| && k != i && NodeInv(q, k, nd, done, published, seen)
    requires Le(published, higher) && i < |q.shards| && GoodMessage(q.shards[i], Candidates(b))
    ensures NodeInv(q, k, nd, done, higher, seen + Arrived(q, i, b, |b.slots|))
  {
    ArrivedMembers(q, i, b, |b.slots|);
    var now := seen + Arrived(q, i, b, |b.slots|);
    forall j | j in QueueSlots(nd.queue) ensures CandidateAt(q, k, j) !in now {
      assert CandidateAt(q, k, j).shardRank == k;
    }
  }

  lemma PublishKeepsNode(q: Query, k: nat, nd: Node, published: Score, seen: set<HeapCandidate>)
    requires k < |q.shards| && NodeInv(q, k, nd, false, published, seen) && nd.started
    ensures NodeInv(q, k, nd.(cell := FloorUpdate(published), unread := true), false, published, seen)
  {
  }

  lemma SummaryKeepsSender(q: Query, i: nat, nd: Node, published: Score, seen: set<HeapCandidate>)
    requires i < |q.shards| && NodeInv(q, i, nd, false, published, seen)
    requires nd.queue != [] && nd.queue[0] == Summary(true)
    ensures NodeInv(q, i, nd.(queue := nd.queue[1..]), true, published, seen)
  {
    var t := nd.(queue := nd.queue[1..]);
    assert nd.queue[0].Summary?;
    assert t.queue == [];
    assert QueueSlots(nd.queue) == [] + QueueSlots(nd.queue[1..]);
  }

  // ---- Whole steps ----

  lemma NodeStepKeepsInv(q: Query, s: System, i: nat, t: Node)
    requires Accepted(q) && RunningInv(q, s) && i < |s.nodes|
    requires t.started == s.nodes[i].started && s.nodes[i].pos <= t.pos
    requires NodeInv(q, i, t, s.collector.completed[i], s.collector.published, s.seen)
    ensures RunningInv(q, s.(nodes := s.nodes[i := t]))
  {
  }

  lemma OpenKeepsInv(q: Query, s: System)
    requires Accepted(q) && RunningInv(q, s) && s.streams < |s.nodes|
    ensures s.nodes[s.streams].cell == Start
    ensures RunningInv(q, s.(nodes := s.nodes[s.streams := s.nodes[s.streams].(started := true, unread := false)],
                             streams := s.streams + 1))
  {
    var i := s.streams;
    assert NodeInv(q, i, s.nodes[i], s.collector.completed[i], s.collector.published, s.seen);
  }

  function Popped(nodes: seq<Node>, i: nat): seq<Node>
    requires i < |nodes| && nodes[i].queue != []
  {
    nodes[i := nodes[i].(queue := nodes[i].queue[1..])]
  }

  /** The nodes once a batch has been popped and a raised floor published. */
  function AfterTake(nodes: seq<Node>, completed: seq<bool>, i: nat, floor: Score, raised: bool): (after: seq<Node>)
    requires |nodes| == |completed| && i < |nodes| && nodes[i].queue != []
    ensures |after| == |nodes| && forall k :: 0 <= k < |nodes| ==> after[k].pos == nodes[k].pos
  {
    if raised then Publish(Popped(nodes, i), completed, floor) else Popped(nodes, i)
  }

  lemma TakeBatchKeepsNodes(
    q: Query, nodes: seq<Node>, completed: seq<bool>, published: Score, seen: set<HeapCandidate>, i: nat, b: Batch,
    higher: Score, raised: bool)
    requires Accepted(q) && |nodes| == |completed| == |q.shards| && i < |nodes|
    requires NodesInv(q, nodes, completed, published, seen) && StreamsInv(nodes, |nodes|, completed)
    requires nodes[i].queue != [] && nodes[i].queue[0] == Candidates(b)
    requires Le(published, higher)
    ensures !completed[i] && FreshBatch(q, i, b, seen)
    ensures var after := AfterTake(nodes, completed, i, higher, raised);
            && NodesInv(q, after, completed, higher, seen + Arrived(q, i, b, |b.slots|))
            && StreamsInv(after, |nodes|, completed)
  {
    assert NodeInv(q, i, nodes[i], completed[i], published, seen);
    DeliveryKeepsSender(q, i, nodes[i], b, published, higher, seen);
    var now := seen + Arrived(q, i, b, |b.slots|);
    var popped := Popped(nodes, i);
    forall k | 0 <= k < |nodes| ensures NodeInv(q, k, popped[k], completed[k], higher, now) {
      if k != i {
        assert NodeInv(q, k, nodes[k], completed[k], published, seen);
        DeliveryKeepsOthers(q, k, nodes[k], completed[k], published, higher, seen, i, b);
      }
    }
    if raised {
      forall k | 0 <= k < |nodes| && !completed[k]
        ensures NodeInv(q, k, popped[k].(cell := FloorUpdate(higher), unread := true), false, higher, now)
      {
        PublishKeepsNode(q, k, popped[k], higher, now);
      }
    }
  }

  lemma ArrivedWasScanned(q: Query, nodes: seq<Node>, i: nat, b: Batch, published: Score, seen: set<HeapCandidate>)
    requires Accepted(q) && i < |nodes| == |q.shards| && NodeInv(q, i, nodes[i], false, published, seen)
    requires nodes[i].queue != [] && nodes[i].queue[0] == Candidates(b) && FreshBatch(q, i, b, seen)
    requires SeenInv(q, nodes, seen)
    ensures SeenInv(q, nodes, seen + Arrived(q, i, b, |b.slots|))
  {
    ArrivedMembers(q, i, b, |b.slots|);
    assert b.slots[..|b.slots|] == b.slots;
    var slots := QueueSlots(nodes[i].queue);
    assert slots == b.slots + QueueSlots(nodes[i].queue[1..]);
    assert forall j :: 0 <= j < |b.slots| ==> slots[j] == b.slots[j] && slots[j] in slots;
  }

  lemma SeenInvFollowsPositions(q: Query, nodes: seq<Node>, after: seq<Node>, seen: set<HeapCandidate>)
    requires |nodes| == |after| == |q.shards| && SeenInv(q, nodes, seen)
    requires forall k :: 0 <= k < |nodes| ==> nodes[k].pos <= after[k].pos
    ensures SeenInv(q, after, seen)
  {
  }

  function AfterBatch(q: Query, s: System, i: nat, b: Batch, next: State, raised: bool, now: set<HeapCandidate>): System
    requires Shaped(q, s) && i < |s.nodes| && s.nodes[i].queue != []
  {
    System(AfterTake(s.nodes, s.collector.completed, i, next.published, raised), s.streams, next, Running, now,
           s.history + [Message(i, Candidates(b))])
  }

  lemma BatchHistory(q: Query, history: seq<Event>, c: State, i: nat, b: Batch)
    requires Accepted(q) && HistoryInv(q, history, c) && 0 < c.remaining && i < |c.completed| == |q.shards|
    requires TakeBatch(q.options, c, i, b).Continue?
    ensures HistoryInv(q, history + [Message(i, Candidates(b))], TakeBatch(q.options, c, i, b).state)
  {
    assert Handle(q.options, c, Message(i, Candidates(b))) == TakeBatch(q.options, c, i, b);
    ReachesExtends(q.options, InitialState(q.options, |q.shards|), history, c, Message(i, Candidates(b)));
  }

  lemma AfterBatchNodes(
    q: Query, nodes: seq<Node>, completed: seq<bool>, published: Score, seen: set<HeapCandidate>, i: nat, b: Batch,
    higher: Score, raised: bool)
    requires Accepted(q) && |nodes| == |completed| == |q.shards| && i < |nodes|
    requires NodesInv(q, nodes, completed, published, seen) && StreamsInv(nodes, |nodes|, completed)
    requires SeenInv(q, nodes, seen)
    requires nodes[i].queue != [] && nodes[i].queue[0] == Candidates(b) && Le(published, higher)
    ensures !completed[i] && FreshBatch(q, i, b, seen)
    ensures var after := AfterTake(nodes, completed, i, higher, raised);
            var now := seen + Arrived(q, i, b, |b.slots|);
            && NodesInv(q, after, completed, higher, now) && StreamsInv(after, |after|, completed)
            && SeenInv(q, after, now)
  {
    TakeBatchKeepsNodes(q, nodes, completed, published, seen, i, b, higher, raised);
    ArrivedKeepsSeen(q, nodes, completed, published, seen, i, b, AfterTake(nodes, completed, i, higher, raised));
  }

  lemma ArrivedKeepsSeen(
    q: Query, nodes: seq<Node>, completed: seq<bool>, published: Score, seen: set<HeapCandidate>, i: nat, b: Batch,
    after: seq<Node>)
    requires Accepted(q) && |nodes| == |after| == |completed| == |q.shards| && i < |nodes| && !completed[i]
    requires NodesInv(q, nodes, completed, published, seen) && SeenInv(q, nodes, seen)
    requires nodes[i].queue != [] && nodes[i].queue[0] == Candidates(b) && FreshBatch(q, i, b, seen)
    requires forall k :: 0 <= k < |nodes| ==> after[k].pos == nodes[k].pos
    ensures SeenInv(q, after, seen + Arrived(q, i, b, |b.slots|))
  {
    assert NodeInv(q, i, nodes[i], completed[i], published, seen);
    ArrivedWasScanned(q, nodes, i, b, published, seen);
    SeenInvFollowsPositions(q, nodes, after, seen + Arrived(q, i, b, |b.slots|));
  }

  lemma SeenIsEligible(q: Query, s: System)
    requires Accepted(q) && RunningInv(q, s)
    ensures forall c :: c in s.seen ==> IsEligible(q, c)
  {
  }

  lemma AfterBatchKeepsInv(q: Query, s: System, i: nat, b: Batch)
    requires Accepted(q) && RunningInv(q, s) && s.streams == |s.nodes| && i < |s.nodes|
    requires s.nodes[i].queue != [] && s.nodes[i].queue[0] == Candidates(b) && 0 < s.collector.remaining
    ensures !s.collector.completed[i] && FreshBatch(q, i, b, s.seen)
    ensures var out := TakeBatch(q.options, s.collector, i, b);
            && out.Continue? && out.state.remaining == s.collector.remaining
            && RunningInv(q, AfterBatch(q, s, i, b, out.state, out.raised, s.seen + Arrived(q, i, b, |b.slots|)))
  {
    var c := s.collector;
    AfterBatchNodes(q, s.nodes, c.completed, c.published, s.seen, i, b, c.published, false);
    SeenIsEligible(q, s);
    BatchKeepsHeapInv(q, c, s.seen, i, b);
    var out := TakeBatch(q.options, c, i, b);
    AfterBatchNodes(q, s.nodes, c.completed, c.published, s.seen, i, b, out.state.published, out.raised);
    BatchHistory(q, s.history, c, i, b);
  }

  lemma TakeBatchKeepsInv(q: Query, s: System, i: nat)
    requires Accepted(q) && Inv(q, s) && Enabled(q, s, Take(i)) && s.nodes[i].queue[0].Candidates?
    ensures var t := Apply(q, s, Take(i)); t.phase == Running && Inv(q, t)
  {
    var b := s.nodes[i].queue[0].batch;
    AfterBatchKeepsInv(q, s, i, b);
    DeliveredIsArrived(q, i, b);
    var out := TakeBatch(q.options, s.collector, i, b);
    assert Apply(q, s, Take(i)) == AfterBatch(q, s, i, b, out.state, out.raised, s.seen + Arrived(q, i, b, |b.slots|));
  }

  lemma AfterSummaryKeepsInv(q: Query, s: System, i: nat, t: System)
    requires Accepted(q) && RunningInv(q, s) && s.streams == |s.nodes| && i < |s.nodes|
    requires s.nodes[i].queue != [] && s.nodes[i].queue[0] == Summary(true) && 0 < s.collector.remaining
    requires !s.collector.completed[i]
    requires t == System(s.nodes[i := s.nodes[i].(queue := s.nodes[i].queue[1..])], s.streams,
                         TakeSummary(s.collector, i, true).state, t.phase, s.seen,
                         s.history + [Message(i, Summary(true))])
    ensures RunningInv(q, t)
  {
    var c := s.collector;
    assert NodeInv(q, i, s.nodes[i], c.completed[i], c.published, s.seen);
    SummaryKeepsSender(q, i, s.nodes[i], c.published, s.seen);
    UncertifiedDrops(c.completed, i);
    ReachesExtends(q.options, InitialState(q.options, |q.shards|), s.history, c, Message(i, Summary(true)));
    forall k | 0 <= k < |s.nodes|
      ensures NodeInv(q, k, t.nodes[k], t.collector.completed[k], c.published, s.seen)
    {
      if k != i { assert NodeInv(q, k, s.nodes[k], c.completed[k], c.published, s.seen); }
    }
  }

  lemma TakeSummaryKeepsInv(q: Query, s: System, i: nat)
    requires Accepted(q) && Inv(q, s) && Enabled(q, s, Take(i)) && s.nodes[i].queue[0] == Summary(true)
    ensures var t := Apply(q, s, Take(i)); t.phase != Failed && Inv(q, t)
  {
    assert NodeInv(q, i, s.nodes[i], s.collector.completed[i], s.collector.published, s.seen);
    assert !s.collector.completed[i];
    var t := Apply(q, s, Take(i));
    assert t.seen == s.seen + {} == s.seen;
    AfterSummaryKeepsInv(q, s, i, t);
  }

  lemma SendKeepsInv(q: Query, s: System, i: nat)
    requires Accepted(q) && RunningInv(q, s) && Enabled(q, s, Send(i))
    ensures RunningInv(q, Apply(q, s, Send(i)))
  {
    SendKeepsNode(q, i, s.nodes[i], s.collector.completed[i], s.collector.published, s.seen);
    NodeStepKeepsInv(q, s, i, Apply(q, s, Send(i)).nodes[i]);
  }

  lemma PumpKeepsInv(q: Query, s: System, i: nat)
    requires Accepted(q) && RunningInv(q, s) && Enabled(q, s, Pump(i))
    ensures RunningInv(q, Apply(q, s, Pump(i)))
  {
    PumpKeepsNode(q, i, s.nodes[i], s.collector.completed[i], s.collector.published, s.seen);
    NodeStepKeepsInv(q, s, i, Apply(q, s, Pump(i)).nodes[i]);
  }

  lemma ScanKeepsInv(q: Query, s: System, i: nat, count: nat, order: seq<nat>)
    requires Accepted(q) && RunningInv(q, s) && Enabled(q, s, Scan(i, count, order))
    ensures RunningInv(q, Apply(q, s, Scan(i, count, order)))
  {
    ScanKeepsNode(q, i, s.nodes[i], s.collector.completed[i], s.collector.published, s.seen, count, order);
    NodeStepKeepsInv(q, s, i, Apply(q, s, Scan(i, count, order)).nodes[i]);
  }

  lemma EndKeepsInv(q: Query, s: System, i: nat, done: bool)
    requires Accepted(q) && RunningInv(q, s) && Enabled(q, s, if done then Certify(i) else Halt(i))
    ensures RunningInv(q, Apply(q, s, if done then Certify(i) else Halt(i)))
  {
    assert NodeInv(q, i, s.nodes[i], s.collector.completed[i], s.collector.published, s.seen);
    SummaryKeepsNode(q, i, s.nodes[i], s.collector.published, s.seen, done);
    NodeStepKeepsInv(q, s, i, Apply(q, s, if done then Certify(i) else Halt(i)).nodes[i]);
  }

  lemma TakeKeepsInv(q: Query, s: System, i: nat)
    requires Accepted(q) && Inv(q, s) && Enabled(q, s, Take(i))
    ensures Inv(q, Apply(q, s, Take(i)))
  {
    assert NodeInv(q, i, s.nodes[i], s.collector.completed[i], s.collector.published, s.seen);
    assert GoodMessage(q.shards[i], s.nodes[i].queue[0]);
    if s.nodes[i].queue[0].Candidates? {
      TakeBatchKeepsInv(q, s, i);
    } else if s.nodes[i].queue[0].completed {
      TakeSummaryKeepsInv(q, s, i);
    }
  }

  /** Every step keeps the invariant. */
  lemma StepKeepsInv(q: Query, s: System, step: Step)
    requires Accepted(q) && Inv(q, s) && Enabled(q, s, step)
    ensures Inv(q, Apply(q, s, step))
  {
    if s.phase != Failed {
      match step
      case Open => OpenKeepsInv(q, s);
      case Send(i) => SendKeepsInv(q, s, i);
      case Pump(i) => PumpKeepsInv(q, s, i);
      case Scan(i, count, order) => ScanKeepsInv(q, s, i, count, order);
      case Certify(i) => EndKeepsInv(q, s, i, true);
      case Halt(i) => EndKeepsInv(q, s, i, false);
      case Take(i) => TakeKeepsInv(q, s, i);
      case Abort =>
    }
  }
}
