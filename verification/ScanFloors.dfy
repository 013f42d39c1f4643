/** Floors take effect: the coordinator raises its floor whenever the root of a
    full heap allows it, the rise reaches every shard that is still at work, and
    the next chunk is scanned at it. */
module ScanFloors {
  import opened Float32
  import opened TopK
  import opened Ranking
  import opened Collector
  import opened ScanProtocol
  import opened ScanSafety
  import opened ScanRuns
  import opened ScanTheorems

  /** The published floor has caught up with the root of a full heap. */
  ghost predicate CaughtUp(k: nat, c: State) {
    1 <= k && |c.heap| == k ==> Le(c.heap[k - 1].score, c.published)
  }

  /** The cell holds the published floor, or the request if none was published. */
  ghost predicate Told(initial: Score, published: Score, cell: Control) {
    cell == if published == initial then Start else FloorUpdate(published)
  }

  /** What the cell holds has been read, or is the last thing on its way. */
  ghost predicate Following(nd: Node) {
    nd.started && !nd.unread ==>
      if nd.flight != [] then nd.flight[|nd.flight| - 1] == nd.cell
      else nd.cell.FloorUpdate? ==> Le(nd.cell.floor, nd.floorCell)
  }

  ghost predicate FloorsFollow(q: Query, s: System) {
    && |s.nodes| == |s.collector.completed|
    && CaughtUp(q.options.k, s.collector)
    && (forall i :: 0 <= i < |s.nodes| ==> Following(s.nodes[i]))
    && (forall i :: 0 <= i < |s.nodes| && !s.collector.completed[i] ==>
          Told(q.options.StartFloor(), s.collector.published, s.nodes[i].cell))
  }

  lemma PublishCatchesUp(o: Options, c: State, heap: seq<HeapCandidate>, ties: seq<HeapCandidate>)
    requires 1 <= o.k
    ensures var out := PublishRoot(o, c, heap, ties);
            && CaughtUp(o.k, out.state) && Le(c.published, out.state.published)
            && (out.raised <==> Lt(c.published, out.state.published))
            && (!out.raised ==> out.state.published == c.published)
  {
  }

  lemma PublishTells(q: Query, nodes: seq<Node>, completed: seq<bool>, floor: Score)
    requires |nodes| == |completed| && floor != q.options.StartFloor()
    requires forall i :: 0 <= i < |nodes| ==> Following(nodes[i])
    ensures var shown := Publish(nodes, completed, floor);
            && (forall i :: 0 <= i < |nodes| ==> Following(shown[i]))
            && (forall i :: 0 <= i < |nodes| && !completed[i] ==> Told(q.options.StartFloor(), floor, shown[i].cell))
  {
  }

  /** One node moves on, its cell as it was. */
  lemma OneFollows(q: Query, s: System, i: nat, nd: Node, t: System)
    requires FloorsFollow(q, s) && i < |s.nodes| && Following(nd) && nd.cell == s.nodes[i].cell
    requires t.nodes == s.nodes[i := nd] && t.collector == s.collector
    ensures FloorsFollow(q, t)
  {
  }

  lemma PumpFollows(nd: Node)
    requires Following(nd) && ChannelInv(nd) && nd.started && nd.flight != []
    ensures nd.flight[0].FloorUpdate?
    ensures Following(nd.(flight := nd.flight[1..], floorCell := Raised(nd.floorCell, nd.flight[0].floor)))
  {
  }

  lemma SentFollows(nd: Node)
    ensures Following(nd.(flight := nd.flight + [nd.cell], unread := false))
  {
  }

  /** Steps on the way from the coordinator to the scan. */
  lemma ChannelFollows(q: Query, s: System, step: Step)
    requires Accepted(q) && Shaped(q, s) && s.phase != Failed && FloorsFollow(q, s) && Enabled(q, s, step)
    requires forall i :: 0 <= i < |s.nodes| ==> ChannelInv(s.nodes[i])
    requires step.Open? || step.Send? || step.Pump?
    ensures Apply(q, s, step).phase != Failed ==> FloorsFollow(q, Apply(q, s, step))
  {
    var t := Apply(q, s, step);
    if step.Open? {
      if t.phase != Failed { OneFollows(q, s, s.streams, t.nodes[s.streams], t); }
    } else if step.Send? {
      SentFollows(s.nodes[step.i]);
      OneFollows(q, s, step.i, t.nodes[step.i], t);
    } else {
      PumpFollows(s.nodes[step.i]);
      OneFollows(q, s, step.i, t.nodes[step.i], t);
    }
  }

  /** Steps of the scan itself. */
  lemma ScanFollows(q: Query, s: System, i: nat, step: Step)
    requires Accepted(q) && FloorsFollow(q, s) && Shaped(q, s) && Enabled(q, s, step)
    requires (step.Scan? || step.Certify? || step.Halt?) && step.i == i
    ensures FloorsFollow(q, Apply(q, s, step))
  {
    var t := Apply(q, s, step);
    assert Following(s.nodes[i]);
    OneFollows(q, s, i, t.nodes[i], t);
  }

  lemma NodeFollows(q: Query, s: System, step: Step)
    requires Accepted(q) && Shaped(q, s) && s.phase != Failed && FloorsFollow(q, s) && Enabled(q, s, step)
    requires forall i :: 0 <= i < |s.nodes| ==> ChannelInv(s.nodes[i])
    requires !step.Take? && !step.Abort?
    ensures Apply(q, s, step).phase != Failed ==> FloorsFollow(q, Apply(q, s, step))
  {
    if step.Open? || step.Send? || step.Pump? { ChannelFollows(q, s, step); } else { ScanFollows(q, s, step.i, step); }
  }

  lemma PoppedFollows(q: Query, s: System, i: nat) returns (popped: seq<Node>)
    requires FloorsFollow(q, s) && i < |s.nodes| && s.nodes[i].queue != []
    ensures popped == s.nodes[i := s.nodes[i].(queue := s.nodes[i].queue[1..])]
    ensures forall k :: 0 <= k < |popped| ==> Following(popped[k]) && popped[k].cell == s.nodes[k].cell
  {
    popped := s.nodes[i := s.nodes[i].(queue := s.nodes[i].queue[1..])];
    forall k | 0 <= k < |popped| ensures Following(popped[k]) { assert Following(s.nodes[k]); }
  }

  /** What a delivered message makes of the floors, whatever it was. */
  lemma DeliveryFollows(q: Query, s: System, popped: seq<Node>, next: State, raised: bool, t: System)
    requires FloorsFollow(q, s) && |popped| == |s.nodes| == |next.completed| && CaughtUp(q.options.k, next)
    requires Le(q.options.StartFloor(), s.collector.published) && Le(s.collector.published, next.published)
    requires raised <==> Lt(s.collector.published, next.published)
    requires !raised ==> next.published == s.collector.published
    requires forall k :: 0 <= k < |popped| ==> Following(popped[k]) && popped[k].cell == s.nodes[k].cell
    requires forall k :: 0 <= k < |popped| && s.collector.completed[k] ==> next.completed[k]
    requires t.nodes == if raised then Publish(popped, s.collector.completed, next.published) else popped
    requires t.collector == next
    ensures FloorsFollow(q, t)
  {
    if raised { PublishTells(q, popped, s.collector.completed, next.published); }
  }

  lemma TakeFollows(q: Query, s: System, i: nat)
    requires Accepted(q) && Inv(q, s) && FloorsFollow(q, s) && Enabled(q, s, Take(i))
    requires Apply(q, s, Take(i)).phase != Failed
    ensures FloorsFollow(q, Apply(q, s, Take(i)))
  {
    var t, c, message := Apply(q, s, Take(i)), s.collector, s.nodes[i].queue[0];
    var popped := PoppedFollows(q, s, i);
    HandleCatchesUp(q.options, c, Message(i, message));
    var out := Handle(q.options, c, Message(i, message));
    DeliveryFollows(q, s, popped, out.state, out.raised, t);
  }

  lemma HandleCatchesUp(o: Options, c: State, e: Event)
    requires 1 <= o.k && e.shard < |c.completed| && 0 < c.remaining && CaughtUp(o.k, c)
    ensures Handle(o, c, e).Continue? ==>
              var out := Handle(o, c, e);
              && CaughtUp(o.k, out.state) && Le(c.published, out.state.published)
              && (out.raised <==> Lt(c.published, out.state.published))
              && (!out.raised ==> out.state.published == c.published)
              && |out.state.completed| == |c.completed|
              && forall k :: 0 <= k < |c.completed| && c.completed[k] ==> out.state.completed[k]
  {
    if e.Message? && e.payload.Candidates? && TakeBatch(o, c, e.shard, e.payload.batch).Continue? {
      var b := e.payload.batch;
      var heap := OfferAll(c.heap, o, e.shard, b, |b.scores|);
      PublishCatchesUp(o, c, heap, if o.tieComplete then c.ties + ToCandidates(o, e.shard, b, |b.scores|) else c.ties);
    }
  }

  lemma StepFollows(q: Query, s: System, step: Step)
    requires Accepted(q) && Inv(q, s) && s.phase != Failed && FloorsFollow(q, s) && Enabled(q, s, step)
    requires Apply(q, s, step).phase != Failed
    ensures FloorsFollow(q, Apply(q, s, step))
  {
    if step.Take? {
      TakeFollows(q, s, step.i);
    } else if !step.Abort? {
      forall i | 0 <= i < |s.nodes| ensures ChannelInv(s.nodes[i]) {
        assert NodeInv(q, i, s.nodes[i], s.collector.completed[i], s.collector.published, s.seen);
      }
      NodeFollows(q, s, step);
    }
  }

  lemma FailureStays(q: Query, s: System, step: Step)
    requires Accepted(q) && Shaped(q, s) && Enabled(q, s, step) && s.phase == Failed
    ensures Apply(q, s, step).phase == Failed
  {
  }

  ghost predicate FollowsOn(q: Query, s: System, t: System) {
    (s.phase != Failed ==> FloorsFollow(q, s)) ==> (t.phase != Failed ==> FloorsFollow(q, t))
  }

  lemma NextFollows(q: Query, run: seq<System>, n: nat)
    requires Accepted(q) && IsRun(q, run) && n + 1 < |run|
    ensures FollowsOn(q, run[n], run[n + 1])
  {
    RunKeepsInv(q, run, n);
    assert NextAt(q, run, n);
    var step :| Enabled(q, run[n], step) && run[n + 1] == Apply(q, run[n], step);
    if run[n].phase == Failed {
      FailureStays(q, run[n], step);
    } else if run[n + 1].phase != Failed && FloorsFollow(q, run[n]) {
      StepFollows(q, run[n], step);
    }
  }

  lemma {:induction false} FollowsAlong(q: Query, states: seq<System>)
    requires states != [] && forall i :: 0 <= i < |states| - 1 ==> FollowsOn(q, states[i], states[i + 1])
    ensures FollowsOn(q, states[0], states[|states| - 1])
  {
    if 1 < |states| {
      FollowsAlong(q, states[..|states| - 1]);
      assert FollowsOn(q, states[|states| - 2], states[|states| - 1]);
    }
  }

  lemma RunFollows(q: Query, run: seq<System>, n: nat)
    requires Accepted(q) && IsRun(q, run) && n < |run|
    ensures run[n].phase != Failed ==> FloorsFollow(q, run[n])
  {
    forall i | 0 <= i < n ensures FollowsOn(q, run[i], run[i + 1]) { NextFollows(q, run, i); }
    FollowsAlong(q, run[..n + 1]);
  }

  lemma StateTakesEffect(q: Query, s: System, i: nat)
    requires Accepted(q) && Inv(q, s) && s.phase != Failed && FloorsFollow(q, s) && i < |q.shards|
    ensures var c, nd := s.collector, s.nodes[i];
            && Shaped(q, s)
            && (|c.heap| == q.options.k ==> Le(c.heap[q.options.k - 1].score, c.published))
            && (!c.completed[i] && c.published != q.options.StartFloor() ==> nd.cell == FloorUpdate(c.published))
            && (!c.completed[i] && nd.started && !nd.unread && nd.flight == [] ==> Le(c.published, Polled(nd)))
  {
    assert Following(s.nodes[i]);
    assert NodeInv(q, i, s.nodes[i], s.collector.completed[i], s.collector.published, s.seen);
    if !s.collector.completed[i] { assert Told(q.options.StartFloor(), s.collector.published, s.nodes[i].cell); }
  }

  /** In every run, while the search has not failed: a full heap's root is never
      above the published floor; the cell of every uncertified shard holds that
      floor once one was published; and a node that has read everything scans its
      next chunk at that floor or a higher one. */
  lemma FloorsTakeEffect(q: Query, run: seq<System>, n: nat, i: nat)
    requires Accepted(q) && IsRun(q, run) && n < |run| && run[n].phase != Failed && i < |q.shards|
    ensures Shaped(q, run[n])
    ensures var c, nd := run[n].collector, run[n].nodes[i];
            && (|c.heap| == q.options.k ==> Le(c.heap[q.options.k - 1].score, c.published))
            && (!c.completed[i] && c.published != q.options.StartFloor() ==> nd.cell == FloorUpdate(c.published))
            && (!c.completed[i] && nd.started && !nd.unread && nd.flight == [] ==> Le(c.published, Polled(nd)))
  {
    RunFollows(q, run, n);
    RunKeepsInv(q, run, n);
    StateTakesEffect(q, run[n], i);
  }

  /** Nothing strictly below the floor a chunk is scanned at is sent. */
  lemma ChunksKeepTheFloor(shard: Shard, lo: nat, hi: nat, nd: Node, order: seq<nat>, floor: Score)
    requires EmitsChunk(shard, lo, hi, Polled(nd), order) && Le(floor, Polled(nd))
    ensures forall j :: j in order ==> lo <= j < hi <= |shard.rows| && Le(floor, shard.rows[j].score)
  {
  }
}
