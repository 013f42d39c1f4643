/** The candidate stream over live shards: what a positive certificate says
    about the collection's rows. */
module CandidateScan {
  import opened Float32
  import opened TopK
  import opened Ranking
  import opened Rows
  import opened Wire
  import opened CandidateStream
  import C = Collector
  import P = ScanProtocol
  import S = ScanSafety
  import N = ScanRuns

  /** Candidate streaming needs labels on every shard; a label is a u64. The
      coordinator keeps no heap here, so `k` is not used. */
  ghost predicate Streamable(q: P.Query) {
    && P.Accepted(q) && q.options.stableLabelOrder
    && forall i, j: nat :: 0 <= i < |q.shards| && j < |q.shards[i].rows| ==> q.shards[i].rows[j].rowLabel < U64
  }

  /** `order` and `emitted` record what was relayed and what shards produced. */
  datatype Relay = Relay(
    nodes: seq<P.Node>, streams: nat, inputs: seq<Input>, order: seq<HeapCandidate>, emitted: set<HeapCandidate>)

  datatype Step =
    | OfNode(step: P.Step)
    | Take(i: nat)
    | Hear(input: Input)

  ghost predicate Shaped(q: P.Query, r: Relay) {
    && |r.nodes| == |q.shards| && 0 < |q.shards| && r.streams <= |r.nodes|
    && AllForShards(r.inputs, |q.shards|)
  }

  ghost function State(q: P.Query, r: Relay): Stream
    requires Shaped(q, r)
  {
    Drive(|q.shards|, q.options.initialFloor, r.inputs)
  }

  /** The shard side is the one of the coordinator's own search. */
  ghost function NodeView(q: P.Query, r: Relay): P.System
    requires Shaped(q, r)
  {
    var s := State(q, r);
    P.System(r.nodes, r.streams, C.State([], [], s.lastFloor, s.completed, s.remaining), P.Running, {}, [])
  }

  /** From the caller's side or the clock, or the closing of a certified stream. */
  predicate Heard(s: Stream, input: Input) {
    input.FromShard? ==> input.event.Closed? && input.event.shard < |s.completed| && s.completed[input.event.shard]
  }

  ghost predicate Enabled(q: P.Query, r: Relay, step: Step)
    requires Streamable(q) && Shaped(q, r)
  {
    match step
    case OfNode(step) => !step.Take? && !step.Abort? && P.Enabled(q, NodeView(q, r), step)
    case Take(i) =>
      r.streams == |r.nodes| && !State(q, r).ended && i < |r.nodes| && r.nodes[i].queue != []
    case Hear(input) => r.streams == |r.nodes| && !State(q, r).ended && Heard(State(q, r), input)
  }

  ghost function Produced(q: P.Query, step: P.Step): set<HeapCandidate> {
    if step.Scan? && step.i < |q.shards|
    then set j | j in step.order && j < |q.shards[step.i].rows| :: P.CandidateAt(q, step.i, j) else {}
  }

  ghost function Relayed(q: P.Query, i: nat, m: C.Payload): seq<HeapCandidate>
    requires i < |q.shards|
  {
    if m.Candidates? && S.GoodMessage(q.shards[i], m)
    then seq(|m.batch.slots|, n requires 0 <= n < |m.batch.slots| => P.CandidateAt(q, i, m.batch.slots[n])) else []
  }

  ghost function Apply(q: P.Query, r: Relay, step: Step): (t: Relay)
    requires Streamable(q) && Shaped(q, r) && Enabled(q, r, step)
    ensures Shaped(q, t)
  {
    match step
    case OfNode(step) =>
      var view := P.Apply(q, NodeView(q, r), step);
      r.(nodes := view.nodes, streams := view.streams, emitted := r.emitted + Produced(q, step))
    case Take(i) =>
      var message := r.nodes[i].queue[0];
      r.(nodes := N.Popped(r.nodes, i), inputs := r.inputs + [FromShard(C.Message(i, message))],
         order := r.order + Relayed(q, i, message))
    case Hear(input) =>
      var t := r.(inputs := r.inputs + [input]);
      var s, next := State(q, r), State(q, t);
      if next.lastFloor != s.lastFloor then t.(nodes := P.Publish(r.nodes, s.completed, next.lastFloor)) else t
  }

  ghost function Init(q: P.Query): Relay {
    Relay(P.Init(q).nodes, 0, [], [], {})
  }

  /** Step `n` of the path is one the machine can take. */
  ghost predicate LinkAt(q: P.Query, path: seq<Relay>, n: nat)
    requires Streamable(q) && n + 1 < |path|
  {
    Shaped(q, path[n]) && exists step :: Enabled(q, path[n], step) && path[n + 1] == Apply(q, path[n], step)
  }

  ghost predicate Linked(q: P.Query, path: seq<Relay>)
    requires Streamable(q)
  {
    forall n: nat :: n + 1 < |path| ==> LinkAt(q, path, n)
  }

  ghost predicate IsRun(q: P.Query, run: seq<Relay>)
    requires Streamable(q)
  {
    run != [] && run[0] == Init(q) && Linked(q, run)
  }

  // ---- The invariant ----

  /** The record a relayed row becomes. */
  function AsRecord(c: HeapCandidate): Record {
    Record((if c.rowLabel.Some? then c.rowLabel.value else 0) % U64, c.score as Bits)
  }

  function AsRecords(order: seq<HeapCandidate>): seq<Record> {
    if order == [] then [] else AsRecords(order[..|order| - 1]) + [AsRecord(order[|order| - 1])]
  }

  /** A row a shard produced has been relayed or is in that shard's queue. */
  ghost predicate EmitInv(q: P.Query, nodes: seq<P.Node>, order: seq<HeapCandidate>, emitted: set<HeapCandidate>) {
    && (forall c :: c in order ==> c in emitted)
    && (forall c :: c in emitted ==> P.HasRow(q, c.shardRank, c.slot) && c == P.CandidateAt(q, c.shardRank, c.slot))
    && (forall c :: c in emitted ==>
          c in order || (c.shardRank < |nodes| && c.slot in S.QueueSlots(nodes[c.shardRank].queue)))
    && (forall k, j :: 0 <= k < |nodes| && j in S.QueueSlots(nodes[k].queue) ==>
          P.HasRow(q, k, j) && P.CandidateAt(q, k, j) in emitted)
  }

  ghost predicate NodesSound(q: P.Query, nodes: seq<P.Node>, streams: nat, completed: seq<bool>, remaining: nat,
                             floor: Score, seen: set<HeapCandidate>)
    requires |nodes| == |completed| == |q.shards|
  {
    && S.StreamsInv(nodes, streams, completed)
    && S.SeenInv(q, nodes, seen)
    && S.NodesInv(q, nodes, completed, floor, seen)
    && remaining == S.Uncertified(completed)
  }

  ghost predicate Inv(q: P.Query, r: Relay)
    requires Streamable(q)
  {
    && Shaped(q, r)
    && var s := State(q, r);
       !s.ended || Certified(s) ==>
         && NodesSound(q, r.nodes, r.streams, s.completed, s.remaining, s.lastFloor, Elements(r.order))
         && NoDuplicates(r.order)
         && AllAccepted(|q.shards|, q.options.initialFloor, r.inputs) == AsRecords(r.order)
         && EmitInv(q, r.nodes, r.order, r.emitted)
  }

  lemma InitKeepsInv(q: P.Query)
    requires Streamable(q)
    ensures Inv(q, Init(q))
  {
    N.InitKeepsInv(q);
    N.UncertifiedAll(State(q, Init(q)).completed);
  }

  // ---- Node steps ----

  lemma NodeUpdateKeeps(q: P.Query, nodes: seq<P.Node>, streams: nat, completed: seq<bool>, remaining: nat,
                        floor: Score, seen: set<HeapCandidate>, i: nat, t: P.Node)
    requires |nodes| == |completed| == |q.shards| && i < |nodes|
    requires NodesSound(q, nodes, streams, completed, remaining, floor, seen)
    requires t.started == nodes[i].started && nodes[i].pos <= t.pos
    requires S.NodeInv(q, i, t, completed[i], floor, seen)
    ensures NodesSound(q, nodes[i := t], streams, completed, remaining, floor, seen)
  {
  }

  lemma OpenKeeps(q: P.Query, nodes: seq<P.Node>, streams: nat, completed: seq<bool>, remaining: nat,
                  floor: Score, seen: set<HeapCandidate>)
    requires |nodes| == |completed| == |q.shards| && streams < |nodes|
    requires NodesSound(q, nodes, streams, completed, remaining, floor, seen)
    ensures nodes[streams].cell == C.Start
    ensures var t := nodes[streams].(started := true, unread := false);
            NodesSound(q, nodes[streams := t], streams + 1, completed, remaining, floor, seen)
  {
    assert S.NodeInv(q, streams, nodes[streams], completed[streams], floor, seen);
  }

  lemma EndKeeps(q: P.Query, nodes: seq<P.Node>, streams: nat, completed: seq<bool>, remaining: nat,
                 floor: Score, seen: set<HeapCandidate>, i: nat, done: bool)
    requires |nodes| == |completed| == |q.shards| && i < |nodes|
    requires NodesSound(q, nodes, streams, completed, remaining, floor, seen)
    requires nodes[i].started && !nodes[i].ended && (done ==> nodes[i].pos == |q.shards[i].rows|)
    ensures var t := nodes[i].(ended := true, queue := nodes[i].queue + [C.Summary(done)]);
            NodesSound(q, nodes[i := t], streams, completed, remaining, floor, seen)
  {
    assert S.NodeInv(q, i, nodes[i], completed[i], floor, seen);
    N.SummaryKeepsNode(q, i, nodes[i], floor, seen, done);
    NodeUpdateKeeps(q, nodes, streams, completed, remaining, floor, seen, i,
                    nodes[i].(ended := true, queue := nodes[i].queue + [C.Summary(done)]));
  }

  lemma ChannelStepKeeps(q: P.Query, r: Relay, step: P.Step)
    requires Streamable(q) && Shaped(q, r) && Enabled(q, r, OfNode(step))
    requires var s := State(q, r);
             NodesSound(q, r.nodes, r.streams, s.completed, s.remaining, s.lastFloor, Elements(r.order))
    requires step.Open? || step.Send? || step.Pump?
    ensures var s, t := State(q, r), Apply(q, r, OfNode(step));
            NodesSound(q, t.nodes, t.streams, s.completed, s.remaining, s.lastFloor, Elements(r.order))
  {
    var s, seen := State(q, r), Elements(r.order);
    var after := Apply(q, r, OfNode(step)).nodes;
    match step
    case Open => OpenKeeps(q, r.nodes, r.streams, s.completed, s.remaining, s.lastFloor, seen);
    case Send(i) =>
      N.SendKeepsNode(q, i, r.nodes[i], s.completed[i], s.lastFloor, seen);
      NodeUpdateKeeps(q, r.nodes, r.streams, s.completed, s.remaining, s.lastFloor, seen, i, after[i]);
    case Pump(i) =>
      N.PumpKeepsNode(q, i, r.nodes[i], s.completed[i], s.lastFloor, seen);
      NodeUpdateKeeps(q, r.nodes, r.streams, s.completed, s.remaining, s.lastFloor, seen, i, after[i]);
  }

  lemma NodeStepKeeps(q: P.Query, r: Relay, step: P.Step)
    requires Streamable(q) && Shaped(q, r) && Enabled(q, r, OfNode(step))
    requires var s := State(q, r);
             NodesSound(q, r.nodes, r.streams, s.completed, s.remaining, s.lastFloor, Elements(r.order))
    ensures var s, t := State(q, r), Apply(q, r, OfNode(step));
            NodesSound(q, t.nodes, t.streams, s.completed, s.remaining, s.lastFloor, Elements(r.order))
  {
    var s, seen := State(q, r), Elements(r.order);
    var after := Apply(q, r, OfNode(step)).nodes;
    match step
    case Scan(i, count, order) =>
      N.ScanKeepsNode(q, i, r.nodes[i], s.completed[i], s.lastFloor, seen, count, order);
      NodeUpdateKeeps(q, r.nodes, r.streams, s.completed, s.remaining, s.lastFloor, seen, i, after[i]);
    case Certify(i) => EndKeeps(q, r.nodes, r.streams, s.completed, s.remaining, s.lastFloor, seen, i, true);
    case Halt(i) => EndKeeps(q, r.nodes, r.streams, s.completed, s.remaining, s.lastFloor, seen, i, false);
    case _ => ChannelStepKeeps(q, r, step);
  }

  /** A node step appends what it produced to its own queue. */
  lemma NodeStepQueues(q: P.Query, r: Relay, step: P.Step)
    requires Streamable(q) && Shaped(q, r) && Enabled(q, r, OfNode(step)) && EmitInv(q, r.nodes, r.order, r.emitted)
    ensures var t := Apply(q, r, OfNode(step)); EmitInv(q, t.nodes, t.order, t.emitted)
  {
    var t := Apply(q, r, OfNode(step));
    forall k | 0 <= k < |r.nodes|
      ensures S.QueueSlots(t.nodes[k].queue) == S.QueueSlots(r.nodes[k].queue)
              + (if step.Scan? && step.i == k then step.order else [])
    {
      QueueGrows(q, r, step, k);
    }
    if step.Scan? { ProducedAre(q, r, step); }
    forall c | c in Produced(q, step) ensures c.slot in S.QueueSlots(t.nodes[c.shardRank].queue) {
      assert c.slot in step.order && c.shardRank == step.i;
    }
  }

  lemma ProducedAre(q: P.Query, r: Relay, step: P.Step)
    requires Streamable(q) && Shaped(q, r) && Enabled(q, r, OfNode(step)) && step.Scan?
    ensures forall j :: j in step.order ==> P.HasRow(q, step.i, j) && P.CandidateAt(q, step.i, j) in Produced(q, step)
  {
  }

  lemma QueueGrows(q: P.Query, r: Relay, step: P.Step, k: nat)
    requires Streamable(q) && Shaped(q, r) && Enabled(q, r, OfNode(step)) && k < |r.nodes|
    ensures S.QueueSlots(Apply(q, r, OfNode(step)).nodes[k].queue)
         == S.QueueSlots(r.nodes[k].queue) + (if step.Scan? && step.i == k then step.order else [])
  {
    var queue := r.nodes[k].queue;
    assert S.QueueSlots(queue) + [] == S.QueueSlots(queue);
    match step
    case Scan(i, count, order) =>
      if i == k {
        assert forall j :: 0 <= j < |order| ==> order[j] in order;
        if order == [] { assert queue + [] == queue; }
        else { S.QueueSlotsAppend(queue, C.Candidates(P.BatchOf(q.shards[i], order))); }
      }
    case Certify(i) => S.QueueSlotsAppend(queue, C.Summary(true));
    case Halt(i) => S.QueueSlotsAppend(queue, C.Summary(false));
    case _ =>
  }

  lemma OfNodeKeepsInv(q: P.Query, r: Relay, step: P.Step)
    requires Streamable(q) && Inv(q, r) && Enabled(q, r, OfNode(step))
    ensures Inv(q, Apply(q, r, OfNode(step)))
  {
    var s := State(q, r);
    if !s.ended || Certified(s) {
      NodeStepKeeps(q, r, step);
      NodeStepQueues(q, r, step);
    }
  }

  // ---- Taking from a queue ----

  lemma {:induction false} AsRecordsConcat(a: seq<HeapCandidate>, b: seq<HeapCandidate>)
    ensures AsRecords(a + b) == AsRecords(a) + AsRecords(b)
  {
    if b == [] {
      assert a + b == a;
    } else {
      assert (a + b)[..|a + b| - 1] == a + b[..|b| - 1];
      AsRecordsConcat(a, b[..|b| - 1]);
    }
  }

  ghost predicate GoodBatch(q: P.Query, i: nat, b: C.Batch) {
    && Streamable(q) && i < |q.shards| && S.GoodMessage(q.shards[i], C.Candidates(b))
  }

  lemma {:induction false} BatchRecords(q: P.Query, i: nat, b: C.Batch, n: nat)
    requires GoodBatch(q, i, b) && n <= |b.slots|
    ensures Labelled(b) && C.NanFree(b, |b.scores|)
    ensures RecordsOf(b, n) == AsRecords(Relayed(q, i, C.Candidates(b))[..n])
  {
    assert q.shards[i].labelled;
    if n > 0 {
      BatchRecords(q, i, b, n - 1);
      var r := Relayed(q, i, C.Candidates(b));
      assert r[..n][..n - 1] == r[..n - 1];
      assert r[n - 1] == P.CandidateAt(q, i, b.slots[n - 1]);
    }
  }

  lemma RelayedIsArrived(q: P.Query, i: nat, b: C.Batch)
    requires GoodBatch(q, i, b)
    ensures Elements(Relayed(q, i, C.Candidates(b))) == S.Arrived(q, i, b, |b.slots|)
    ensures forall c :: c in Relayed(q, i, C.Candidates(b)) ==> c.shardRank == i && c.slot in b.slots
    ensures forall j :: j in b.slots ==>
              j < |q.shards[i].rows| && P.CandidateAt(q, i, j) in Relayed(q, i, C.Candidates(b))
  {
    var r := Relayed(q, i, C.Candidates(b));
    S.ArrivedMembers(q, i, b, |b.slots|);
    assert b.slots[..|b.slots|] == b.slots;
    forall j | j in b.slots ensures j < |q.shards[i].rows| && P.CandidateAt(q, i, j) in r {
      var n :| 0 <= n < |b.slots| && b.slots[n] == j;
      assert r[n] == P.CandidateAt(q, i, j);
    }
    forall c | c in r ensures c in S.Arrived(q, i, b, |b.slots|) && c.shardRank == i && c.slot in b.slots {
      var n :| 0 <= n < |r| && r[n] == c;
    }
  }

  lemma OrderGrows(q: P.Query, i: nat, b: C.Batch, order: seq<HeapCandidate>)
    requires GoodBatch(q, i, b) && NoDuplicates(order) && S.FreshBatch(q, i, b, Elements(order))
    ensures NoDuplicates(order + Relayed(q, i, C.Candidates(b)))
    ensures Elements(order + Relayed(q, i, C.Candidates(b))) == Elements(order) + S.Arrived(q, i, b, |b.slots|)
  {
    var r := Relayed(q, i, C.Candidates(b));
    RelayedIsArrived(q, i, b);
    forall x, y | 0 <= x < y < |r| ensures r[x] != r[y] { assert b.slots[x] != b.slots[y]; }
    forall c | c in r ensures c !in Elements(order) {
      var n :| 0 <= n < |r| && r[n] == c;
    }
    N.NoDuplicatesConcat(order, r);
    forall c ensures c in order + r <==> c in Elements(order) || c in r { }
  }

  lemma PoppedQueues(q: P.Query, nodes: seq<P.Node>, i: nat, order: seq<HeapCandidate>, emitted: set<HeapCandidate>)
    requires Streamable(q) && i < |nodes| == |q.shards| && nodes[i].queue != []
    requires S.GoodMessage(q.shards[i], nodes[i].queue[0]) && EmitInv(q, nodes, order, emitted)
    ensures EmitInv(q, N.Popped(nodes, i), order + Relayed(q, i, nodes[i].queue[0]), emitted)
  {
    var m := nodes[i].queue[0];
    if m.Candidates? {
      RelayedIsArrived(q, i, m.batch);
    }
    forall c | c in Relayed(q, i, m) ensures c in emitted {
      var n :| 0 <= n < |Relayed(q, i, m)| && Relayed(q, i, m)[n] == c;
    }
    assert S.QueueSlots(nodes[i].queue) == S.SlotsOf(m) + S.QueueSlots(nodes[i].queue[1..]);
    forall c | c in emitted && c !in order
      ensures c in Relayed(q, i, m) || c.slot in S.QueueSlots(N.Popped(nodes, i)[c.shardRank].queue)
    {
      if c.shardRank == i && c.slot in S.SlotsOf(m) { assert c == P.CandidateAt(q, i, c.slot); }
    }
  }

  /** The stream's own step for a good message from an uncertified shard. */
  lemma StreamTakes(s: Stream, i: nat, m: C.Payload)
    requires Sized(s) && !s.ended && i < |s.completed| && !s.completed[i] && 0 < s.remaining
    requires match m
             case Candidates(b) => Labelled(b) && C.NanFree(b, |b.scores|)
             case Summary(done) => done
             case _ => false
    ensures var t := React(s, FromShard(C.Message(i, m)));
            && t.lastFloor == s.lastFloor
            && (m.Candidates? ==> !t.ended && t.completed == s.completed && t.remaining == s.remaining)
            && (m.Summary? ==> t.completed == s.completed[i := true] && t.remaining == s.remaining - 1
                               && (t.ended ==> Certified(t)))
  {
  }

  /** One more input: the stream reacts, and may accept records. */
  lemma InputsGrow(q: P.Query, inputs: seq<Input>, e: Input)
    requires 0 < |q.shards| && AllForShards(inputs, |q.shards|) && ForShards(e, |q.shards|)
    ensures AllForShards(inputs + [e], |q.shards|)
    ensures var n, f := |q.shards|, q.options.initialFloor;
            && Drive(n, f, inputs + [e]) == React(Drive(n, f, inputs), e)
            && AllAccepted(n, f, inputs + [e]) == AllAccepted(n, f, inputs) + Accepted(Drive(n, f, inputs), e)
  {
    assert (inputs + [e])[..|inputs|] == inputs;
  }

  lemma TakeApplies(q: P.Query, r: Relay, i: nat)
    requires Streamable(q) && Shaped(q, r) && Enabled(q, r, Take(i))
    ensures var e := FromShard(C.Message(i, r.nodes[i].queue[0])); var t := Apply(q, r, Take(i));
            && ForShards(e, |State(q, r).completed|)
            && t == Relay(N.Popped(r.nodes, i), r.streams, r.inputs + [e],
                          r.order + Relayed(q, i, r.nodes[i].queue[0]), r.emitted)
            && State(q, t) == React(State(q, r), e)
            && AllAccepted(|q.shards|, q.options.initialFloor, t.inputs)
            == AllAccepted(|q.shards|, q.options.initialFloor, r.inputs) + Accepted(State(q, r), e)
  {
    InputsGrow(q, r.inputs, FromShard(C.Message(i, r.nodes[i].queue[0])));
  }

  lemma BatchMoves(q: P.Query, nodes: seq<P.Node>, completed: seq<bool>, remaining: nat, floor: Score,
                   order: seq<HeapCandidate>, emitted: set<HeapCandidate>, i: nat, b: C.Batch)
    requires Streamable(q) && |nodes| == |completed| == |q.shards| && i < |nodes|
    requires nodes[i].queue != [] && nodes[i].queue[0] == C.Candidates(b)
    requires NodesSound(q, nodes, |nodes|, completed, remaining, floor, Elements(order)) && NoDuplicates(order)
    requires EmitInv(q, nodes, order, emitted)
    ensures !completed[i] && Labelled(b) && C.NanFree(b, |b.scores|)
    ensures var now := order + Relayed(q, i, C.Candidates(b));
            && NodesSound(q, N.Popped(nodes, i), |nodes|, completed, remaining, floor, Elements(now))
            && NoDuplicates(now) && EmitInv(q, N.Popped(nodes, i), now, emitted)
            && AsRecords(now) == AsRecords(order) + RecordsOf(b, |b.scores|)
  {
    assert S.NodeInv(q, i, nodes[i], completed[i], floor, Elements(order));
    assert S.GoodMessage(q.shards[i], nodes[i].queue[0]);
    N.AfterBatchNodes(q, nodes, completed, floor, Elements(order), i, b, floor, false);
    OrderGrows(q, i, b, order);
    PoppedQueues(q, nodes, i, order, emitted);
    BatchRecords(q, i, b, |b.slots|);
    var added := Relayed(q, i, C.Candidates(b));
    assert added[..|b.slots|] == added;
    AsRecordsConcat(order, added);
  }

  lemma TakeBatchKeeps(q: P.Query, r: Relay, i: nat)
    requires Streamable(q) && Inv(q, r) && Enabled(q, r, Take(i)) && r.nodes[i].queue[0].Candidates?
    ensures Inv(q, Apply(q, r, Take(i)))
  {
    var s, b := State(q, r), r.nodes[i].queue[0].batch;
    BatchMoves(q, r.nodes, s.completed, s.remaining, s.lastFloor, r.order, r.emitted, i, b);
    TakeApplies(q, r, i);
    StreamTakes(s, i, C.Candidates(b));
  }

  /** A certified shard's node is drained, and no other node notices. */
  lemma SummaryNodes(q: P.Query, nodes: seq<P.Node>, completed: seq<bool>, floor: Score,
                     seen: set<HeapCandidate>, i: nat)
    requires |nodes| == |completed| == |q.shards| && i < |nodes| && S.NodesInv(q, nodes, completed, floor, seen)
    requires nodes[i].queue != [] && nodes[i].queue[0] == C.Summary(true)
    ensures !completed[i] && S.NodesInv(q, N.Popped(nodes, i), completed[i := true], floor, seen)
  {
    var popped := N.Popped(nodes, i);
    assert S.NodeInv(q, i, nodes[i], completed[i], floor, seen);
    N.SummaryKeepsSender(q, i, nodes[i], floor, seen);
    forall k | 0 <= k < |nodes| ensures S.NodeInv(q, k, popped[k], completed[i := true][k], floor, seen) {
      if k != i { assert S.NodeInv(q, k, nodes[k], completed[k], floor, seen); }
    }
  }

  lemma SummaryMoves(q: P.Query, nodes: seq<P.Node>, completed: seq<bool>, remaining: nat, floor: Score,
                     seen: set<HeapCandidate>, i: nat)
    requires |nodes| == |completed| == |q.shards| && i < |nodes|
    requires NodesSound(q, nodes, |nodes|, completed, remaining, floor, seen)
    requires nodes[i].queue != [] && nodes[i].queue[0] == C.Summary(true)
    ensures !completed[i] && 0 < remaining
    ensures NodesSound(q, N.Popped(nodes, i), |nodes|, completed[i := true], remaining - 1, floor, seen)
  {
    SummaryNodes(q, nodes, completed, floor, seen, i);
    N.UncertifiedDrops(completed, i);
  }

  lemma TakeSummaryKeeps(q: P.Query, r: Relay, i: nat)
    requires Streamable(q) && Inv(q, r) && Enabled(q, r, Take(i)) && r.nodes[i].queue[0] == C.Summary(true)
    ensures Inv(q, Apply(q, r, Take(i)))
  {
    var s := State(q, r);
    SummaryMoves(q, r.nodes, s.completed, s.remaining, s.lastFloor, Elements(r.order), i);
    PoppedQueues(q, r.nodes, i, r.order, r.emitted);
    StreamTakes(s, i, C.Summary(true));
    TakeApplies(q, r, i);
    assert r.order + [] == r.order;
  }

  /** A summary that admits an unfinished scan ends the stream uncertified. */
  lemma TakeFailureKeeps(q: P.Query, r: Relay, i: nat)
    requires Streamable(q) && Inv(q, r) && Enabled(q, r, Take(i)) && r.nodes[i].queue[0] == C.Summary(false)
    ensures Inv(q, Apply(q, r, Take(i)))
  {
    TakeApplies(q, r, i);
    FailureEnds(State(q, r), i);
  }

  lemma FailureEnds(s: Stream, i: nat)
    requires Sized(s) && !s.ended && i < |s.completed| && 0 < s.remaining
    ensures var t := React(s, FromShard(C.Message(i, C.Summary(false)))); t.ended && !Certified(t)
  {
  }

  lemma TakeKeepsInv(q: P.Query, r: Relay, i: nat)
    requires Streamable(q) && Inv(q, r) && Enabled(q, r, Take(i))
    ensures Inv(q, Apply(q, r, Take(i)))
  {
    var s := State(q, r);
    assert S.NodeInv(q, i, r.nodes[i], s.completed[i], s.lastFloor, Elements(r.order));
    assert S.GoodMessage(q.shards[i], r.nodes[i].queue[0]);
    match r.nodes[i].queue[0]
    case Candidates(_) => TakeBatchKeeps(q, r, i);
    case Summary(done) => if done { TakeSummaryKeeps(q, r, i); } else { TakeFailureKeeps(q, r, i); }
  }

  // ---- Hearing from the caller ----

  lemma StreamHears(s: Stream, input: Input)
    requires Sized(s) && !s.ended && 0 < s.remaining && Heard(s, input)
    ensures var t := React(s, input);
            && (t.ended ==> !Certified(t) || t.sent == s.sent)
            && Le(s.lastFloor, t.lastFloor) && t.completed == s.completed && t.remaining == s.remaining
            && Accepted(s, input) == []
  {
  }

  lemma RaiseKeepsNodes(q: P.Query, nodes: seq<P.Node>, completed: seq<bool>, remaining: nat,
                        floor: Score, higher: Score, seen: set<HeapCandidate>, raised: bool)
    requires |nodes| == |completed| == |q.shards| && Le(floor, higher)
    requires NodesSound(q, nodes, |nodes|, completed, remaining, floor, seen)
    ensures NodesSound(q, if raised then P.Publish(nodes, completed, higher) else nodes, |nodes|, completed, remaining,
                       higher, seen)
  {
    forall k | 0 <= k < |nodes| ensures S.NodeInv(q, k, nodes[k], completed[k], higher, seen) {
      assert S.NodeInv(q, k, nodes[k], completed[k], floor, seen);
    }
    if raised {
      forall k | 0 <= k < |nodes| && !completed[k]
        ensures S.NodeInv(q, k, nodes[k].(cell := C.FloorUpdate(higher), unread := true), false, higher, seen)
      {
        N.PublishKeepsNode(q, k, nodes[k], higher, seen);
      }
    }
  }

  /** While the stream runs it has sent no certificate. */
  lemma NotYetCertified(q: P.Query, r: Relay)
    requires Streamable(q) && Shaped(q, r) && !State(q, r).ended
    ensures !Certified(State(q, r))
  {
    StreamsKeep(|q.shards|, q.options.initialFloor, r.inputs);
  }

  lemma HearKeepsInv(q: P.Query, r: Relay, input: Input)
    requires Streamable(q) && Inv(q, r) && Enabled(q, r, Hear(input))
    ensures Inv(q, Apply(q, r, Hear(input)))
  {
    var s, t := State(q, r), Apply(q, r, Hear(input));
    InputsGrow(q, r.inputs, input);
    StreamHears(s, input);
    NotYetCertified(q, r);
    var next := React(s, input);
    if !next.ended {
      var raised := next.lastFloor != s.lastFloor;
      RaiseKeepsNodes(q, r.nodes, s.completed, s.remaining, s.lastFloor, next.lastFloor, Elements(r.order), raised);
      HearKeepsQueues(q, r, input);
    }
  }

  lemma HearKeepsQueues(q: P.Query, r: Relay, input: Input)
    requires Streamable(q) && Shaped(q, r) && Enabled(q, r, Hear(input)) && EmitInv(q, r.nodes, r.order, r.emitted)
    ensures var t := Apply(q, r, Hear(input)); EmitInv(q, t.nodes, r.order, r.emitted)
  {
    var t := Apply(q, r, Hear(input));
    assert |t.nodes| == |r.nodes| && forall k :: 0 <= k < |r.nodes| ==> t.nodes[k].queue == r.nodes[k].queue;
  }

  // ---- The main result ----

  lemma StepKeepsInv(q: P.Query, r: Relay, step: Step)
    requires Streamable(q) && Inv(q, r) && Enabled(q, r, step)
    ensures Inv(q, Apply(q, r, step))
  {
    match step
    case OfNode(inner) => OfNodeKeepsInv(q, r, inner);
    case Take(i) => TakeKeepsInv(q, r, i);
    case Hear(input) => HearKeepsInv(q, r, input);
  }

  ghost predicate InvOn(q: P.Query, r: Relay, t: Relay)
    requires Streamable(q)
  {
    Inv(q, r) ==> Inv(q, t)
  }

  lemma NextKeepsInv(q: P.Query, run: seq<Relay>, n: nat)
    requires Streamable(q) && Linked(q, run) && n + 1 < |run|
    ensures InvOn(q, run[n], run[n + 1])
  {
    assert LinkAt(q, run, n);
    var step :| Enabled(q, run[n], step) && run[n + 1] == Apply(q, run[n], step);
    if Inv(q, run[n]) { StepKeepsInv(q, run[n], step); }
  }

  lemma {:induction false} InvAlong(q: P.Query, states: seq<Relay>)
    requires Streamable(q) && states != [] && Inv(q, states[0])
    requires forall i :: 0 <= i < |states| - 1 ==> InvOn(q, states[i], states[i + 1])
    ensures Inv(q, states[|states| - 1])
  {
    if 1 < |states| {
      InvAlong(q, states[..|states| - 1]);
      assert InvOn(q, states[|states| - 2], states[|states| - 1]);
    }
  }

  /** The invariant holds in every reachable state. */
  lemma RunKeepsInv(q: P.Query, run: seq<Relay>, n: nat)
    requires Streamable(q) && IsRun(q, run) && n < |run|
    ensures Inv(q, run[n])
  {
    InitKeepsInv(q);
    forall i | 0 <= i < n ensures InvOn(q, run[i], run[i + 1]) { NextKeepsInv(q, run, i); }
    InvAlong(q, run[..n + 1]);
  }

  /** When every shard is certified nothing is left in a queue, and whatever was
      scanned but not sent lies below the last floor. */
  lemma CertifiedIsDrained(q: P.Query, r: Relay)
    requires Streamable(q) && Inv(q, r) && Certified(State(q, r)) && State(q, r).remaining == 0
    ensures r.emitted == Elements(r.order)
    ensures forall c :: P.IsEligible(q, c) && Le(State(q, r).lastFloor, c.score) ==> c in r.order
    ensures forall c :: c in r.order ==> P.IsEligible(q, c)
  {
    var s := State(q, r);
    N.UncertifiedAll(s.completed);
    forall k | 0 <= k < |r.nodes| ensures r.nodes[k].queue == [] && r.nodes[k].pos == |q.shards[k].rows| {
      assert S.NodeInv(q, k, r.nodes[k], s.completed[k], s.lastFloor, Elements(r.order));
    }
    forall c | P.IsEligible(q, c) && Le(s.lastFloor, c.score) ensures c in r.order {
      assert S.NodeInv(q, c.shardRank, r.nodes[c.shardRank], true, s.lastFloor, Elements(r.order));
      assert S.QueueSlots(r.nodes[c.shardRank].queue) == [];
    }
    forall c | c in r.emitted ensures c in r.order {
      assert S.QueueSlots(r.nodes[c.shardRank].queue) == [];
    }
    forall c | c in r.order ensures P.IsEligible(q, c) { assert c in Elements(r.order); }
  }

  lemma StateIsComplete(q: P.Query, r: Relay)
    requires Streamable(q) && Inv(q, r) && Certified(State(q, r))
    ensures var s := State(q, r);
            && NoDuplicates(r.order) && Elements(r.order) == r.emitted
            && |Decode(Payload(s.sent))| == |r.order|
            && (forall n :: 0 <= n < |r.order| ==>
                  var record := Decode(Payload(s.sent))[n];
                  r.order[n].rowLabel == Some(record.rowLabel) && r.order[n].score == record.score)
            && (forall c :: P.IsEligible(q, c) && Le(s.lastFloor, c.score) ==> c in r.order)
            && (forall c :: c in r.order ==> P.IsEligible(q, c))
            && s.sent[|s.sent| - 1].emitted == (if |r.order| < U64 then |r.order| else U64 - 1)
            && s.sent[|s.sent| - 1].shardsTotal == s.sent[|s.sent| - 1].shardsCompleted
            == if |q.shards| < 0x1_0000_0000 then |q.shards| else 0xFFFF_FFFF
  {
    WireHolds(|q.shards|, q.options.initialFloor, r.inputs, r.order);
    CertifiedIsDrained(q, r);
    forall n | 0 <= n < |r.order| ensures IsRecordOf(Decode(Payload(State(q, r).sent))[n], r.order[n]) {
      AsRecordsAt(r.order, n);
      RecordOfRow(q, r.order[n]);
    }
  }

  /** A stream that ends with completed=true: its bytes decode to every row the
      shards produced, each exactly once; these include every admitted row at or
      above the highest floor accepted and none below the initial one. */
  lemma CertifiedStreamIsComplete(q: P.Query, run: seq<Relay>)
    requires P.Accepted(q) && q.options.stableLabelOrder
    requires forall i, j: nat :: 0 <= i < |q.shards| && j < |q.shards[i].rows| ==> q.shards[i].rows[j].rowLabel < U64
    requires IsRun(q, run)
    ensures Shaped(q, run[|run| - 1])
    ensures Certified(State(q, run[|run| - 1])) ==>
              var r := run[|run| - 1]; var s := State(q, r);
              && NoDuplicates(r.order) && Elements(r.order) == r.emitted
              && |Decode(Payload(s.sent))| == |r.order|
              && (forall n :: 0 <= n < |r.order| ==>
                    var record := Decode(Payload(s.sent))[n];
                    r.order[n].rowLabel == Some(record.rowLabel) && r.order[n].score == record.score)
              && (forall c :: P.IsEligible(q, c) && Le(s.lastFloor, c.score) ==> c in r.order)
              && (forall c :: c in r.order ==> P.IsEligible(q, c))
              && s.sent[|s.sent| - 1].emitted == (if |r.order| < U64 then |r.order| else U64 - 1)
              && s.sent[|s.sent| - 1].shardsTotal == s.sent[|s.sent| - 1].shardsCompleted
              == if |q.shards| < 0x1_0000_0000 then |q.shards| else 0xFFFF_FFFF
  {
    RunKeepsInv(q, run, |run| - 1);
    if Certified(State(q, run[|run| - 1])) { StateIsComplete(q, run[|run| - 1]); }
  }

  /** The record carries the row's own label and score. */
  predicate IsRecordOf(record: Record, c: HeapCandidate) {
    c.rowLabel == Some(record.rowLabel) && record.score == c.score
  }

  lemma RecordOfRow(q: P.Query, c: HeapCandidate)
    requires Streamable(q) && P.IsEligible(q, c)
    ensures IsRecordOf(AsRecord(c), c)
  {
    assert q.shards[c.shardRank].labelled;
  }

  lemma WireHolds(shards: nat, floor: Option<Score>, inputs: seq<Input>, order: seq<HeapCandidate>)
    requires 0 < shards && AllForShards(inputs, shards) && Certified(Drive(shards, floor, inputs))
    requires AllAccepted(shards, floor, inputs) == AsRecords(order)
    ensures var s := Drive(shards, floor, inputs); var last := s.sent[|s.sent| - 1];
            && s.remaining == 0 && Decode(Payload(s.sent)) == AsRecords(order) && |AsRecords(order)| == |order|
            && last.emitted == (if |order| < U64 then |order| else U64 - 1)
            && last.shardsTotal == last.shardsCompleted == if shards < 0x1_0000_0000 then shards else 0xFFFF_FFFF
  {
    CompletionCertifies(shards, floor, inputs);
    AsRecordsLength(order);
  }

  lemma {:induction false} AsRecordsLength(order: seq<HeapCandidate>)
    ensures |AsRecords(order)| == |order|
  {
    if order != [] { AsRecordsLength(order[..|order| - 1]); }
  }

  /** Record for record, a relayed row's label and score. */
  lemma {:induction false} AsRecordsAt(order: seq<HeapCandidate>, n: nat)
    requires n < |order|
    ensures |AsRecords(order)| == |order| && AsRecords(order)[n] == AsRecord(order[n])
  {
    AsRecordsLength(order);
    AsRecordsLength(order[..|order| - 1]);
    if n < |order| - 1 { AsRecordsAt(order[..|order| - 1], n); }
  }
}
