/** Floors only rise and stay safe, every run is finite, and what a run without
    a failure keeps. */
module ScanProgress {
  import opened Float32
  import opened TopK
  import opened Ranking
  import opened Collector
  import opened ScanProtocol
  import opened ScanSafety
  import opened ScanRuns
  import opened ScanTheorems

  /** In every reachable state that has not failed: each floor a node holds,
      has on its way or can still read is at most the published one, which a full heap's root has
      reached, and the next message an unstarted node reads is Start. */
  lemma FloorsStaySafe(q: Query, run: seq<System>, n: nat)
    requires Accepted(q) && IsRun(q, run) && n < |run| && run[n].phase != Failed
    ensures var s := run[n]; var c := s.collector;
            && |s.nodes| == |q.shards|
            && (forall i :: 0 <= i < |s.nodes| ==>
                  var nd := s.nodes[i];
                  && Le(q.options.StartFloor(), nd.floorNow) && Le(nd.floorNow, nd.floorCell)
                  && Le(nd.floorCell, c.published) && (nd.cell.FloorUpdate? ==> Le(nd.cell.floor, c.published))
                  && (forall m :: 0 <= m < |nd.flight| ==>
                        nd.flight[m].FloorUpdate? && Le(nd.flight[m].floor, c.published))
                  && (!nd.started ==> nd.cell == Start && nd.unread && nd.flight == []))
            && (|c.heap| == q.options.k ==> Le(c.published, c.heap[q.options.k - 1].score))
            && (|c.heap| < q.options.k ==> c.published == q.options.StartFloor())
  {
    RunKeepsInv(q, run, n);
    var s := run[n];
    forall i | 0 <= i < |s.nodes| ensures FloorsInv(s.nodes[i], q.options.StartFloor(), s.collector.published)
        && ChannelInv(s.nodes[i]) {
      assert NodeInv(q, i, s.nodes[i], s.collector.completed[i], s.collector.published, s.seen);
    }
    if |s.collector.heap| == q.options.k {
      assert s.collector.heap[q.options.k - 1] in s.collector.heap;
    }
  }

  lemma HandleRaises(o: Options, c: State, e: Event)
    requires 1 <= o.k && e.shard < |c.completed| && 0 < c.remaining
    ensures var out := Handle(o, c, e);
            out.Continue? ==> Le(c.published, out.state.published) && |out.state.completed| == |c.completed|
  {
  }

  /** No step lowers the published floor, a node's cell or the floor a scan runs at. */
  lemma FloorsNeverFall(q: Query, s: System, step: Step)
    requires Accepted(q) && Shaped(q, s) && Enabled(q, s, step)
    ensures var t := Apply(q, s, step);
            && |s.nodes| == |t.nodes| && Le(s.collector.published, t.collector.published)
            && forall i :: 0 <= i < |s.nodes| ==>
                 Le(s.nodes[i].floorCell, t.nodes[i].floorCell) && Le(s.nodes[i].floorNow, t.nodes[i].floorNow)
  {
    if step.Take? {
      HandleRaises(q.options, s.collector, Message(step.i, s.nodes[step.i].queue[0]));
    }
  }

  // ---- Every run is finite ----

  /** n * x, by repeated addition. */
  function Times(n: nat, x: nat): nat {
    if x == 0 then 0 else n + Times(n, x - 1)
  }

  lemma {:induction false} TimesMonotone(n: nat, x: nat, y: nat)
    requires x <= y
    ensures Times(n, x) <= Times(n, y)
  {
    if x < y { TimesMonotone(n, x, y - 1); }
  }

  /** What one shard can still cause: a chunk or a summary costs a message, and
      a message costs at most one floor per shard, which is sent and then read. */
  function Weight(rows: nat, nd: Node, shards: nat): nat {
    var work := (if nd.pos <= rows then rows - nd.pos else 0) + (if nd.ended then 0 else 1);
    Times(2 * shards + 2, work) + Times(2 * shards + 1, |nd.queue|)
    + |nd.flight| + (if nd.unread then 2 else 0) + (if nd.started then 0 else 1)
  }

  ghost function TotalWeight(q: Query, nodes: seq<Node>): nat
    requires |nodes| <= |q.shards|
  {
    if nodes == [] then 0
    else TotalWeight(q, nodes[..|nodes| - 1])
         + Weight(|q.shards[|nodes| - 1].rows|, nodes[|nodes| - 1], |q.shards|)
  }

  /** The number of steps a state can still take is at most this. */
  ghost function Remaining(q: Query, s: System): nat
    requires Shaped(q, s)
  {
    TotalWeight(q, s.nodes) + (if s.phase == Running then 1 else 0)
  }

  lemma {:induction false} WeightUpdate(q: Query, nodes: seq<Node>, i: nat, t: Node)
    requires i < |nodes| <= |q.shards|
    ensures TotalWeight(q, nodes[i := t]) == TotalWeight(q, nodes)
              - Weight(|q.shards[i].rows|, nodes[i], |q.shards|) + Weight(|q.shards[i].rows|, t, |q.shards|)
  {
    var m := |nodes| - 1;
    if i == m {
      assert nodes[i := t][..m] == nodes[..m];
    } else {
      assert nodes[i := t][..m] == nodes[..m][i := t];
      WeightUpdate(q, nodes[..m], i, t);
    }
  }

  lemma {:induction false} PublishWeight(q: Query, nodes: seq<Node>, completed: seq<bool>, floor: Score)
    requires |nodes| == |completed| <= |q.shards|
    ensures TotalWeight(q, Publish(nodes, completed, floor)) <= TotalWeight(q, nodes) + 2 * |nodes|
  {
    if nodes != [] {
      var m := |nodes| - 1;
      assert Publish(nodes, completed, floor)[..m] == Publish(nodes[..m], completed[..m], floor);
      PublishWeight(q, nodes[..m], completed[..m], floor);
    }
  }

  lemma WorkOutweighsAMessage(n: nat, work: nat, less: nat, sent: nat, more: nat)
    requires less < work && more <= sent + 1
    ensures Times(n + 2, less) + Times(n + 1, more) < Times(n + 2, work) + Times(n + 1, sent)
  {
    TimesMonotone(n + 2, less + 1, work);
    TimesMonotone(n + 1, more, sent + 1);
    assert Times(n + 2, less + 1) == n + 2 + Times(n + 2, less);
    assert Times(n + 1, sent + 1) == n + 1 + Times(n + 1, sent);
  }

  lemma NodeWeightFalls(rows: nat, nd: Node, t: Node, shards: nat)
    requires |t.queue| <= |nd.queue| + 1
    requires t.unread == nd.unread && t.flight == nd.flight && t.started == nd.started
    requires (nd.pos < t.pos <= rows && t.ended == nd.ended) || (t.pos == nd.pos && !nd.ended && t.ended)
    ensures Weight(rows, t, shards) < Weight(rows, nd, shards)
  {
    var work := (if nd.pos <= rows then rows - nd.pos else 0) + (if nd.ended then 0 else 1);
    var less := (if t.pos <= rows then rows - t.pos else 0) + (if t.ended then 0 else 1);
    WorkOutweighsAMessage(2 * shards, work, less, |nd.queue|, |t.queue|);
  }

  /** A step that changes one node and makes it lighter. */
  lemma NodeUsesUp(q: Query, s: System, i: nat, t: System)
    requires Shaped(q, s) && i < |s.nodes| && t.phase == s.phase && |t.nodes| == |s.nodes|
    requires t.nodes == s.nodes[i := t.nodes[i]] && Shaped(q, t)
    requires Weight(|q.shards[i].rows|, t.nodes[i], |q.shards|) < Weight(|q.shards[i].rows|, s.nodes[i], |q.shards|)
    ensures Remaining(q, t) < Remaining(q, s)
  {
    WeightUpdate(q, s.nodes, i, t.nodes[i]);
  }

  lemma PoppedWeight(q: Query, nodes: seq<Node>, i: nat)
    requires i < |nodes| <= |q.shards| && nodes[i].queue != []
    ensures TotalWeight(q, Popped(nodes, i)) + 2 * |q.shards| + 1 == TotalWeight(q, nodes)
  {
    WeightUpdate(q, nodes, i, Popped(nodes, i)[i]);
  }

  lemma TakeShrinks(q: Query, s: System, i: nat, t: System, floor: Score)
    requires Shaped(q, s) && Shaped(q, t) && i < |s.nodes| && s.nodes[i].queue != [] && s.phase == Running
    requires t.nodes == Popped(s.nodes, i) || t.nodes == Publish(Popped(s.nodes, i), s.collector.completed, floor)
    ensures Remaining(q, t) < Remaining(q, s)
  {
    PoppedWeight(q, s.nodes, i);
    PublishWeight(q, Popped(s.nodes, i), s.collector.completed, floor);
  }

  lemma TakeUsesUp(q: Query, s: System, i: nat)
    requires Accepted(q) && Shaped(q, s) && Enabled(q, s, Take(i))
    ensures Shaped(q, Apply(q, s, Take(i)))
    ensures Remaining(q, Apply(q, s, Take(i))) < Remaining(q, s)
  {
    HandleRaises(q.options, s.collector, Message(i, s.nodes[i].queue[0]));
    var t := Apply(q, s, Take(i));
    TakeShrinks(q, s, i, t, t.collector.published);
  }

  lemma EndUsesUp(q: Query, s: System, i: nat, done: bool)
    requires Accepted(q) && Shaped(q, s) && Enabled(q, s, if done then Certify(i) else Halt(i))
    ensures var t := Apply(q, s, if done then Certify(i) else Halt(i));
            Shaped(q, t) && Remaining(q, t) < Remaining(q, s)
  {
    var t := Apply(q, s, if done then Certify(i) else Halt(i));
    NodeWeightFalls(|q.shards[i].rows|, s.nodes[i], t.nodes[i], |q.shards|);
    NodeUsesUp(q, s, i, t);
  }

  lemma ScanUsesUp(q: Query, s: System, i: nat, count: nat, order: seq<nat>)
    requires Accepted(q) && Shaped(q, s) && Enabled(q, s, Scan(i, count, order))
    ensures var t := Apply(q, s, Scan(i, count, order)); Shaped(q, t) && Remaining(q, t) < Remaining(q, s)
  {
    var t := Apply(q, s, Scan(i, count, order));
    NodeWeightFalls(|q.shards[i].rows|, s.nodes[i], t.nodes[i], |q.shards|);
    NodeUsesUp(q, s, i, t);
  }

  /** Every step, failing or not, uses up some of what remains. */
  lemma StepUsesUp(q: Query, s: System, step: Step)
    requires Accepted(q) && Shaped(q, s) && Enabled(q, s, step)
    requires step.Open? ==> !s.nodes[s.streams].started
    ensures Shaped(q, Apply(q, s, step))
    ensures Remaining(q, Apply(q, s, step)) < Remaining(q, s)
  {
    match step
    case Open =>
      if s.nodes[s.streams].cell == Start { NodeUsesUp(q, s, s.streams, Apply(q, s, step)); }
    case Send(i) => NodeUsesUp(q, s, i, Apply(q, s, step));
    case Pump(i) => NodeUsesUp(q, s, i, Apply(q, s, step));
    case Scan(i, count, order) => ScanUsesUp(q, s, i, count, order);
    case Certify(i) => EndUsesUp(q, s, i, true);
    case Halt(i) => EndUsesUp(q, s, i, false);
    case Take(i) => TakeUsesUp(q, s, i);
    case Abort =>
  }

  /** A bound on the length of every run, fixed by the shard sizes. */
  lemma {:induction false} RunsAreFinite(q: Query, run: seq<System>)
    requires Accepted(q) && IsRun(q, run)
    ensures Shaped(q, Init(q)) && |run| <= Remaining(q, Init(q)) + 1
  {
    RunShrinks(q, run, |run| - 1);
  }

  lemma {:induction false} RunShrinks(q: Query, run: seq<System>, n: nat)
    requires Accepted(q) && IsRun(q, run) && n < |run|
    ensures Shaped(q, Init(q)) && Shaped(q, run[n])
    ensures Remaining(q, run[n]) + n <= Remaining(q, Init(q))
  {
    if n > 0 {
      RunShrinks(q, run, n - 1);
      assert NextAt(q, run, n - 1);
      var step :| Enabled(q, run[n - 1], step) && run[n] == Apply(q, run[n - 1], step);
      RunKeepsInv(q, run, n - 1);
      StepUsesUp(q, run[n - 1], step);
    }
  }

  // ---- Runs without a failure ----

  ghost predicate NothingHalted(s: System) {
    forall i, m :: 0 <= i < |s.nodes| && 0 <= m < |s.nodes[i].queue| ==>
      (s.nodes[i].queue[m].Summary? ==> s.nodes[i].queue[m].completed)
  }

  /** Steps other than a shard stopping early or the search being abandoned. */
  ghost predicate Benign(step: Step) {
    !step.Halt? && !step.Abort?
  }

  ghost predicate QueueOf(q: seq<Payload>, t: seq<Payload>) {
    forall m {:trigger t[m]} :: 0 <= m < |t| ==>
      (t[m].Summary? ==> t[m].completed) || (m < |q| && t[m] == q[m]) || (m + 1 < |q| && t[m] == q[m + 1])
  }

  lemma BenignQueues(q: Query, s: System, step: Step)
    requires Accepted(q) && Shaped(q, s) && Enabled(q, s, step) && Benign(step)
    ensures var t := Apply(q, s, step);
            |t.nodes| == |s.nodes| && forall i :: 0 <= i < |s.nodes| ==> QueueOf(s.nodes[i].queue, t.nodes[i].queue)
  {
  }

  lemma BenignTakeDoesNotFail(q: Query, s: System, i: nat)
    requires Accepted(q) && Inv(q, s) && NothingHalted(s) && Enabled(q, s, Take(i))
    ensures Apply(q, s, Take(i)).phase != Failed
  {
    assert NodeInv(q, i, s.nodes[i], s.collector.completed[i], s.collector.published, s.seen);
    assert GoodMessage(q.shards[i], s.nodes[i].queue[0]);
    if s.nodes[i].queue[0].Candidates? {
      TakeBatchKeepsInv(q, s, i);
    } else {
      TakeSummaryKeepsInv(q, s, i);
    }
  }

  lemma NodeStepsLeaveThePhase(q: Query, s: System, step: Step)
    requires Accepted(q) && Shaped(q, s) && Enabled(q, s, step) && Benign(step) && !step.Take?
    requires step.Open? ==> s.nodes[s.streams].cell == Start
    ensures Apply(q, s, step).phase == s.phase
  {
  }

  lemma BenignStepsDoNotFail(q: Query, s: System, step: Step)
    requires Accepted(q) && Inv(q, s) && s.phase != Failed && NothingHalted(s)
    requires Enabled(q, s, step) && Benign(step)
    ensures Apply(q, s, step).phase != Failed
  {
    if step.Take? {
      BenignTakeDoesNotFail(q, s, step.i);
    } else {
      if step.Open? { OpenKeepsInv(q, s); }
      NodeStepsLeaveThePhase(q, s, step);
    }
  }

  lemma StillNothingHalted(s: System, t: System)
    requires NothingHalted(s) && |t.nodes| == |s.nodes|
    requires forall i :: 0 <= i < |s.nodes| ==> QueueOf(s.nodes[i].queue, t.nodes[i].queue)
    ensures NothingHalted(t)
  {
    forall i, m | 0 <= i < |t.nodes| && 0 <= m < |t.nodes[i].queue|
      ensures t.nodes[i].queue[m].Summary? ==> t.nodes[i].queue[m].completed
    {
      var before, after := s.nodes[i].queue, t.nodes[i].queue;
      assert QueueOf(before, after);
    }
  }

  lemma BenignStepKeeps(q: Query, s: System, step: Step)
    requires Accepted(q) && Inv(q, s) && s.phase != Failed && NothingHalted(s)
    requires Enabled(q, s, step) && Benign(step)
    ensures var t := Apply(q, s, step); Inv(q, t) && t.phase != Failed && NothingHalted(t)
  {
    StepKeepsInv(q, s, step);
    BenignStepsDoNotFail(q, s, step);
    BenignQueues(q, s, step);
    StillNothingHalted(s, Apply(q, s, step));
  }

  ghost predicate BenignAt(q: Query, run: seq<System>, n: nat)
    requires Accepted(q) && n + 1 < |run|
  {
    && Shaped(q, run[n])
    && exists step :: Enabled(q, run[n], step) && Benign(step) && run[n + 1] == Apply(q, run[n], step)
  }

  ghost predicate IsBenignRun(q: Query, run: seq<System>)
    requires Accepted(q)
  {
    && run != [] && run[0] == Init(q)
    && forall n: nat :: n + 1 < |run| ==> BenignAt(q, run, n)
  }

  lemma BenignStepTaken(q: Query, run: seq<System>, n: nat) returns (step: Step)
    requires Accepted(q) && IsBenignRun(q, run) && n + 1 < |run|
    ensures Shaped(q, run[n]) && Enabled(q, run[n], step) && Benign(step) && run[n + 1] == Apply(q, run[n], step)
  {
    assert BenignAt(q, run, n);
    step :| Enabled(q, run[n], step) && Benign(step) && run[n + 1] == Apply(q, run[n], step);
  }

  ghost predicate Unharmed(q: Query, s: System)
    requires Accepted(q)
  {
    Inv(q, s) && s.phase != Failed && NothingHalted(s)
  }

  ghost predicate UnharmedOn(q: Query, s: System, t: System)
    requires Accepted(q)
  {
    Unharmed(q, s) ==> Unharmed(q, t)
  }

  lemma BenignNextKeeps(q: Query, run: seq<System>, n: nat)
    requires Accepted(q) && IsBenignRun(q, run) && n + 1 < |run|
    ensures UnharmedOn(q, run[n], run[n + 1])
  {
    assert BenignAt(q, run, n);
    var step :| Enabled(q, run[n], step) && Benign(step) && run[n + 1] == Apply(q, run[n], step);
    if Unharmed(q, run[n]) { BenignStepKeeps(q, run[n], step); }
  }

  lemma {:induction false} UnharmedAlong(q: Query, states: seq<System>)
    requires Accepted(q) && states != [] && Unharmed(q, states[0])
    requires forall i :: 0 <= i < |states| - 1 ==> UnharmedOn(q, states[i], states[i + 1])
    ensures Unharmed(q, states[|states| - 1])
  {
    if 1 < |states| {
      UnharmedAlong(q, states[..|states| - 1]);
      assert UnharmedOn(q, states[|states| - 2], states[|states| - 1]);
    }
  }

  lemma BenignRunKeeps(q: Query, run: seq<System>, n: nat)
    requires Accepted(q) && IsBenignRun(q, run) && n < |run|
    ensures Inv(q, run[n]) && run[n].phase != Failed && NothingHalted(run[n])
  {
    InitKeepsInv(q);
    forall i | 0 <= i < n ensures UnharmedOn(q, run[i], run[i + 1]) { BenignNextKeeps(q, run, i); }
    UnharmedAlong(q, run[..n + 1]);
  }

  lemma BenignRunsAreRuns(q: Query, run: seq<System>)
    requires Accepted(q) && IsBenignRun(q, run)
    ensures IsRun(q, run)
  {
    forall n: nat | n + 1 < |run| ensures NextAt(q, run, n) { assert BenignAt(q, run, n); }
  }

  lemma BenignExtend(q: Query, run: seq<System>, step: Step) returns (next: seq<System>)
    requires Accepted(q) && IsBenignRun(q, run)
    requires Shaped(q, run[|run| - 1]) && Enabled(q, run[|run| - 1], step) && Benign(step)
    ensures IsBenignRun(q, next) && next == run + [Apply(q, run[|run| - 1], step)]
  {
    next := run + [Apply(q, run[|run| - 1], step)];
    forall n: nat | n + 1 < |next| ensures BenignAt(q, next, n) {
      if n + 1 < |run| { assert BenignAt(q, run, n); }
    }
  }
}
