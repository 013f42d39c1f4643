/** Candidate streams get somewhere: the caller's floors reach every shard that
    is still at work, and on an admissible deployment a stream nobody disturbs
    ends certified. */
module CandidateProgress {
  import opened Float32
  import opened TopK
  import opened Ranking
  import opened Rows
  import opened CandidateStream
  import opened CandidateScan
  import C = Collector
  import P = ScanProtocol
  import S = ScanSafety
  import N = ScanRuns
  import F = ScanFloors
  import G = ScanProgress
  import D = ScanAdmission

  // ---- The caller's floors ----

  ghost predicate NodesFollow(q: P.Query, r: Relay)
    requires Shaped(q, r)
  {
    var s := State(q, r);
    && (forall i :: 0 <= i < |r.nodes| ==> F.Following(r.nodes[i]))
    && (forall i :: 0 <= i < |r.nodes| && !s.completed[i] ==>
          F.Told(q.options.StartFloor(), s.lastFloor, r.nodes[i].cell))
  }

  lemma OfNodeFollows(q: P.Query, r: Relay, step: P.Step)
    requires Streamable(q) && Inv(q, r) && !State(q, r).ended && Enabled(q, r, OfNode(step)) && NodesFollow(q, r)
    ensures NodesFollow(q, Apply(q, r, OfNode(step)))
  {
    var s, view := State(q, r), NodeView(q, r);
    forall i | 0 <= i < |r.nodes| ensures S.ChannelInv(r.nodes[i]) {
      assert S.NodeInv(q, i, r.nodes[i], s.completed[i], s.lastFloor, Elements(r.order));
    }
    F.NodeFollows(q, view, step);
  }

  lemma PoppedFollow(q: P.Query, nodes: seq<P.Node>, completed: seq<bool>, after: seq<bool>, floor: Score, i: nat)
    requires i < |nodes| == |completed| == |after| && nodes[i].queue != []
    requires forall k :: 0 <= k < |nodes| ==> F.Following(nodes[k])
    requires forall k :: 0 <= k < |nodes| && !completed[k] ==> F.Told(q.options.StartFloor(), floor, nodes[k].cell)
    requires forall k :: 0 <= k < |nodes| && completed[k] ==> after[k]
    ensures var popped := N.Popped(nodes, i);
            && (forall k :: 0 <= k < |nodes| ==> F.Following(popped[k]))
            && (forall k :: 0 <= k < |nodes| && !after[k] ==> F.Told(q.options.StartFloor(), floor, popped[k].cell))
  {
    forall k | 0 <= k < |nodes| ensures F.Following(N.Popped(nodes, i)[k]) { assert F.Following(nodes[k]); }
  }

  lemma ShardTurn(s: Stream, e: C.Event)
    requires Sized(s) && e.shard < |s.completed| && !s.ended && 0 < s.remaining
    ensures var t := React(s, FromShard(e));
            && t.lastFloor == s.lastFloor && |t.completed| == |s.completed|
            && forall i :: 0 <= i < |s.completed| && s.completed[i] ==> t.completed[i]
  {
  }

  lemma TakeFollows(q: P.Query, r: Relay, i: nat)
    requires Streamable(q) && Shaped(q, r) && Enabled(q, r, Take(i)) && NodesFollow(q, r)
    ensures NodesFollow(q, Apply(q, r, Take(i)))
  {
    TakeApplies(q, r, i);
    var s, t := State(q, r), State(q, Apply(q, r, Take(i)));
    ShardTurn(s, C.Message(i, r.nodes[i].queue[0]));
    PoppedFollow(q, r.nodes, s.completed, t.completed, s.lastFloor, i);
  }

  lemma HearApplies(q: P.Query, r: Relay, input: Input)
    requires Streamable(q) && Shaped(q, r) && Enabled(q, r, Hear(input))
    ensures var s, next, t := State(q, r), React(State(q, r), input), Apply(q, r, Hear(input));
            && State(q, t) == next && t.streams == r.streams && t.order == r.order && t.emitted == r.emitted
            && t.nodes == if next.lastFloor != s.lastFloor then P.Publish(r.nodes, s.completed, next.lastFloor)
                          else r.nodes
  {
    InputsGrow(q, r.inputs, input);
  }

  /** A floor is only replaced by a higher one, so never by the caller's first. */
  lemma HearTurn(s: Stream, input: Input, initial: Score)
    requires Sized(s) && !s.ended && 0 < s.remaining && Heard(s, input) && Le(initial, s.lastFloor)
    ensures var t := React(s, input);
            t.completed == s.completed && (t.lastFloor != s.lastFloor ==> t.lastFloor != initial)
  {
    StreamHears(s, input);
  }

  lemma HearFollows(q: P.Query, r: Relay, input: Input)
    requires Streamable(q) && Shaped(q, r) && Enabled(q, r, Hear(input)) && NodesFollow(q, r)
    ensures NodesFollow(q, Apply(q, r, Hear(input)))
  {
    var s, next := State(q, r), React(State(q, r), input);
    HearApplies(q, r, input);
    LastFloorIsHighest(|q.shards|, q.options.initialFloor, r.inputs);
    HearTurn(s, input, q.options.StartFloor());
    if next.lastFloor != s.lastFloor { F.PublishTells(q, r.nodes, s.completed, next.lastFloor); }
  }

  lemma StepFollows(q: P.Query, r: Relay, step: Step)
    requires Streamable(q) && Inv(q, r) && Enabled(q, r, step) && Follows(q, r)
    ensures Follows(q, Apply(q, r, step))
  {
    match step
    case OfNode(inner) => if !State(q, r).ended { OfNodeFollows(q, r, inner); }
    case Take(i) => TakeFollows(q, r, i);
    case Hear(input) => HearFollows(q, r, input);
  }

  lemma InitFollows(q: P.Query)
    requires Streamable(q)
    ensures Shaped(q, Init(q)) && NodesFollow(q, Init(q))
  {
    InitKeepsInv(q);
  }

  lemma StepTaken(q: P.Query, run: seq<Relay>, n: nat) returns (step: Step)
    requires Streamable(q) && IsRun(q, run) && n + 1 < |run|
    ensures Inv(q, run[n]) && Enabled(q, run[n], step) && run[n + 1] == Apply(q, run[n], step)
  {
    RunKeepsInv(q, run, n);
    assert LinkAt(q, run, n);
    step :| Enabled(q, run[n], step) && run[n + 1] == Apply(q, run[n], step);
  }

  ghost predicate Follows(q: P.Query, r: Relay) {
    Shaped(q, r) && (!State(q, r).ended ==> NodesFollow(q, r))
  }

  ghost predicate FollowsOn(q: P.Query, r: Relay, t: Relay) {
    Follows(q, r) ==> Follows(q, t)
  }

  lemma NextFollows(q: P.Query, run: seq<Relay>, n: nat)
    requires Streamable(q) && IsRun(q, run) && n + 1 < |run|
    ensures FollowsOn(q, run[n], run[n + 1])
  {
    if Follows(q, run[n]) {
      var step := StepTaken(q, run, n);
      StepFollows(q, run[n], step);
    }
  }

  lemma {:induction false} FollowsAlong(q: P.Query, states: seq<Relay>)
    requires states != [] && forall i :: 0 <= i < |states| - 1 ==> FollowsOn(q, states[i], states[i + 1])
    ensures FollowsOn(q, states[0], states[|states| - 1])
  {
    if 1 < |states| {
      FollowsAlong(q, states[..|states| - 1]);
      assert FollowsOn(q, states[|states| - 2], states[|states| - 1]);
    }
  }

  lemma RunFollows(q: P.Query, run: seq<Relay>, n: nat)
    requires Streamable(q) && IsRun(q, run) && n < |run|
    ensures Follows(q, run[n])
  {
    InitFollows(q);
    forall i | 0 <= i < n ensures FollowsOn(q, run[i], run[i + 1]) { NextFollows(q, run, i); }
    FollowsAlong(q, run[..n + 1]);
  }

  /** A node that has read what its cell holds scans at the floor in force. */
  lemma ScansAtTheFloor(initial: Score, floor: Score, nd: P.Node)
    requires F.Following(nd) && F.Told(initial, floor, nd.cell) && S.FloorsInv(nd, initial, floor)
    requires nd.started && !nd.unread && nd.flight == []
    ensures Le(floor, P.Polled(nd))
  {
  }

  lemma StateTakesEffect(q: P.Query, r: Relay, i: nat)
    requires Streamable(q) && Inv(q, r) && !State(q, r).ended && NodesFollow(q, r) && i < |q.shards|
    ensures var s := State(q, r);
            && (!s.completed[i] && s.lastFloor != q.options.StartFloor() ==>
                  r.nodes[i].cell == C.FloorUpdate(s.lastFloor))
            && (!s.completed[i] && r.nodes[i].started && !r.nodes[i].unread && r.nodes[i].flight == [] ==>
                  Le(s.lastFloor, P.Polled(r.nodes[i])))
  {
    var s := State(q, r);
    assert F.Following(r.nodes[i]);
    assert S.NodeInv(q, i, r.nodes[i], s.completed[i], s.lastFloor, Elements(r.order));
    if !s.completed[i] {
      assert F.Told(q.options.StartFloor(), s.lastFloor, r.nodes[i].cell);
      if r.nodes[i].started && !r.nodes[i].unread && r.nodes[i].flight == [] {
        ScansAtTheFloor(q.options.StartFloor(), s.lastFloor, r.nodes[i]);
      }
    }
  }

  /** In every run, while the stream runs: the cell of every uncertified shard
      holds the caller's last floor once one was raised, and a node that has read
      everything scans its next chunk at that floor or a higher one. */
  lemma FloorsTakeEffect(q: P.Query, run: seq<Relay>, n: nat, i: nat)
    requires Streamable(q) && IsRun(q, run) && n < |run| && i < |q.shards|
    requires Shaped(q, run[n]) && !State(q, run[n]).ended
    ensures var s, nd := State(q, run[n]), run[n].nodes[i];
            && (!s.completed[i] && s.lastFloor != q.options.StartFloor() ==> nd.cell == C.FloorUpdate(s.lastFloor))
            && (!s.completed[i] && nd.started && !nd.unread && nd.flight == [] ==> Le(s.lastFloor, P.Polled(nd)))
  {
    RunFollows(q, run, n);
    RunKeepsInv(q, run, n);
    StateTakesEffect(q, run[n], i);
  }

  // ---- Undisturbed streams end certified ----

  /** Nothing a shard has on its way admits an unfinished scan. */
  ghost predicate NothingHalted(r: Relay) {
    forall i, m :: 0 <= i < |r.nodes| && 0 <= m < |r.nodes[i].queue| ==>
      (r.nodes[i].queue[m].Summary? ==> r.nodes[i].queue[m].completed)
  }

  /** A shard moves on or is heard; nothing stops, and the caller is silent. */
  ghost predicate Useful(step: Step) {
    step.Take? || (step.OfNode? && G.Benign(step.step))
  }

  lemma UnblockedMoves(q: P.Query, r: Relay, i: nat) returns (step: Step)
    requires Streamable(q) && Inv(q, r) && !State(q, r).ended && i < |r.nodes|
    requires r.nodes[i].started && !r.nodes[i].ended && P.Unblocked(q, r.nodes[i])
    ensures Enabled(q, r, step) && Useful(step)
  {
    var s := State(q, r);
    assert S.NodeInv(q, i, r.nodes[i], s.completed[i], s.lastFloor, Elements(r.order));
    D.UnblockedMoves(q, NodeView(q, r), i);
    var inner :| P.Enabled(q, NodeView(q, r), inner) && G.Benign(inner) && !inner.Take?;
    step := OfNode(inner);
  }

  lemma HolderMoves(q: P.Query, r: Relay, i: nat) returns (step: Step)
    requires Streamable(q) && Inv(q, r) && !State(q, r).ended && i < |r.nodes|
    requires r.nodes[i].started && !r.nodes[i].ended && !D.Clogs(q, i)
    ensures Enabled(q, r, step) && Useful(step)
  {
    var s := State(q, r);
    D.QueueFits(q, i, r.nodes[i], s.completed[i], s.lastFloor, Elements(r.order));
    step := UnblockedMoves(q, r, i);
  }

  lemma OpenedMoves(q: P.Query, r: Relay) returns (step: Step)
    requires Streamable(q) && Inv(q, r) && !State(q, r).ended && r.streams == |r.nodes|
    ensures Enabled(q, r, step) && Useful(step)
  {
    var s := State(q, r);
    N.UncertifiedAll(s.completed);
    var i :| 0 <= i < |r.nodes| && !s.completed[i];
    assert S.NodeInv(q, i, r.nodes[i], s.completed[i], s.lastFloor, Elements(r.order));
    if r.nodes[i].queue != [] { step := Take(i); } else { step := UnblockedMoves(q, r, i); }
  }

  /** On an admissible deployment a running stream can always go on. */
  lemma NeverStuck(q: P.Query, r: Relay) returns (step: Step)
    requires Streamable(q) && D.Admissible(q) && Inv(q, r) && !State(q, r).ended
    ensures Enabled(q, r, step) && Useful(step)
  {
    if r.streams == |r.nodes| {
      step := OpenedMoves(q, r);
    } else if P.SlotFree(q, r.nodes, r.streams) {
      step := OfNode(P.Open);
    } else {
      assert !D.Short(q, r.streams);
      var i := D.SomeMarkMore(q.limits.host, P.Holding(r.nodes), D.Blockers(q), q.limits.host(r.streams), r.streams);
      step := HolderMoves(q, r, i);
    }
  }

  lemma NodeProgress(q: P.Query, r: Relay, inner: P.Step)
    requires Streamable(q) && Inv(q, r) && !State(q, r).ended && NothingHalted(r)
    requires Enabled(q, r, OfNode(inner)) && G.Benign(inner)
    ensures var t := Apply(q, r, OfNode(inner));
            && Inv(q, t) && State(q, t) == State(q, r) && NothingHalted(t)
            && G.TotalWeight(q, t.nodes) < G.TotalWeight(q, r.nodes)
  {
    var s, view := State(q, r), NodeView(q, r);
    OfNodeKeepsInv(q, r, inner);
    if inner.Open? {
      var i := r.streams;
      assert S.NodeInv(q, i, r.nodes[i], s.completed[i], s.lastFloor, Elements(r.order));
    }
    G.StepUsesUp(q, view, inner);
    G.NodeStepsLeaveThePhase(q, view, inner);
    G.BenignQueues(q, view, inner);
    G.StillNothingHalted(view, P.Apply(q, view, inner));
  }

  lemma TakeProgress(q: P.Query, r: Relay, i: nat)
    requires Streamable(q) && Inv(q, r) && NothingHalted(r) && Enabled(q, r, Take(i))
    ensures var t := Apply(q, r, Take(i));
            && Inv(q, t) && NothingHalted(t) && (State(q, t).ended ==> Certified(State(q, t)))
            && G.TotalWeight(q, t.nodes) < G.TotalWeight(q, r.nodes)
  {
    var s, m := State(q, r), r.nodes[i].queue[0];
    assert S.NodeInv(q, i, r.nodes[i], s.completed[i], s.lastFloor, Elements(r.order));
    assert S.GoodMessage(q.shards[i], m);
    TakeKeepsInv(q, r, i);
    TakeApplies(q, r, i);
    if m.Candidates? {
      BatchMoves(q, r.nodes, s.completed, s.remaining, s.lastFloor, r.order, r.emitted, i, m.batch);
    } else {
      SummaryMoves(q, r.nodes, s.completed, s.remaining, s.lastFloor, Elements(r.order), i);
    }
    StreamTakes(s, i, m);
    G.PoppedWeight(q, r.nodes, i);
  }

  lemma Extend(q: P.Query, run: seq<Relay>, step: Step) returns (next: seq<Relay>)
    requires Streamable(q) && IsRun(q, run) && Shaped(q, run[|run| - 1]) && Enabled(q, run[|run| - 1], step)
    ensures IsRun(q, next) && next == run + [Apply(q, run[|run| - 1], step)]
  {
    next := run + [Apply(q, run[|run| - 1], step)];
    forall n: nat | n + 1 < |next| ensures LinkAt(q, next, n) {
      if n + 1 < |run| { assert LinkAt(q, run, n); }
    }
  }

  /** A stream that runs, and that no shard has let down. */
  ghost predicate Undisturbed(q: P.Query, r: Relay)
    requires Streamable(q)
  {
    Inv(q, r) && !State(q, r).ended && NothingHalted(r)
  }

  lemma OneStepOn(q: P.Query, r: Relay) returns (step: Step)
    requires Streamable(q) && D.Admissible(q) && Undisturbed(q, r)
    ensures Enabled(q, r, step)
    ensures var t := Apply(q, r, step);
            && (Certified(State(q, t)) || Undisturbed(q, t))
            && G.TotalWeight(q, t.nodes) < G.TotalWeight(q, r.nodes)
  {
    step := NeverStuck(q, r);
    if step.OfNode? { NodeProgress(q, r, step.step); } else { TakeProgress(q, r, step.i); }
  }

  ghost predicate EndsCertified(q: P.Query, r: Relay) {
    Shaped(q, r) && Certified(State(q, r))
  }

  lemma LinkFirst(q: P.Query, r: Relay, step: Step, rest: seq<Relay>)
    requires Streamable(q) && Shaped(q, r) && Enabled(q, r, step)
    requires rest != [] && rest[0] == Apply(q, r, step) && Linked(q, rest)
    ensures Linked(q, [r] + rest)
  {
    var path := [r] + rest;
    forall n: nat | n + 1 < |path| ensures LinkAt(q, path, n) {
      if n > 0 { assert LinkAt(q, rest, n - 1); }
    }
  }

  lemma {:induction false} PathToCertificate(q: P.Query, r: Relay) returns (path: seq<Relay>)
    requires Streamable(q) && D.Admissible(q) && Undisturbed(q, r)
    ensures path != [] && path[0] == r && Linked(q, path) && EndsCertified(q, path[|path| - 1])
    decreases G.TotalWeight(q, r.nodes)
  {
    var step := OneStepOn(q, r);
    var t := Apply(q, r, step);
    var rest := [t];
    if !Certified(State(q, t)) { rest := PathToCertificate(q, t); }
    LinkFirst(q, r, step, rest);
    path := [r] + rest;
  }

  lemma PathsJoin(q: P.Query, a: seq<Relay>, b: seq<Relay>)
    requires Streamable(q) && Linked(q, a) && Linked(q, b) && a != [] && b != [] && b[0] == a[|a| - 1]
    ensures Linked(q, a + b[1..])
  {
    var path := a + b[1..];
    forall n: nat | n + 1 < |path| ensures LinkAt(q, path, n) {
      if n + 1 < |a| {
        assert LinkAt(q, a, n);
      } else {
        var m: nat := n + 1 - |a|;
        assert LinkAt(q, b, m) && path[n] == b[m] && path[n + 1] == b[m + 1];
      }
    }
  }

  /** On an admissible deployment every stream that still runs and has not been
      let down by a shard can end certified: no further failure, and it does. */
  lemma UndisturbedStreamsCertify(q: P.Query, run: seq<Relay>) returns (next: seq<Relay>)
    requires Streamable(q) && D.Admissible(q) && IsRun(q, run) && Undisturbed(q, run[|run| - 1])
    ensures IsRun(q, next) && run <= next
    ensures Shaped(q, next[|next| - 1]) && Certified(State(q, next[|next| - 1]))
  {
    var path := PathToCertificate(q, run[|run| - 1]);
    PathsJoin(q, run, path);
    next := run + path[1..];
    assert next[|next| - 1] == path[|path| - 1];
    assert EndsCertified(q, next[|next| - 1]);
  }

  /** So a stream over live shards can always be brought to its certificate. */
  lemma SomeRunCertifies(q: P.Query) returns (run: seq<Relay>)
    requires P.Accepted(q) && q.options.stableLabelOrder && D.Admissible(q)
    requires forall i, j: nat :: 0 <= i < |q.shards| && j < |q.shards[i].rows| ==> q.shards[i].rows[j].rowLabel < U64
    ensures IsRun(q, run) && Shaped(q, run[|run| - 1]) && Certified(State(q, run[|run| - 1]))
  {
    InitKeepsInv(q);
    run := UndisturbedStreamsCertify(q, [Init(q)]);
  }

  /** And whatever the caller, the clock or a closing stream has to say is heard
      at any time. */
  lemma AnyoneIsHeard(q: P.Query, run: seq<Relay>, input: Input) returns (next: seq<Relay>)
    requires Streamable(q) && IsRun(q, run) && Shaped(q, run[|run| - 1])
    requires var r := run[|run| - 1]; r.streams == |r.nodes| && !State(q, r).ended
    requires !input.FromShard?
    ensures IsRun(q, next) && |next| == |run| + 1 && run <= next
    ensures var r, t := run[|run| - 1], next[|run|];
            Shaped(q, t) && t.inputs == r.inputs + [input] && State(q, t) == React(State(q, r), input)
  {
    next := Extend(q, run, Hear(input));
    HearApplies(q, run[|run| - 1], input);
  }
}
