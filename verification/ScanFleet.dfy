/** Several queries of one table at once: they share each node's scan slots. How
    many slots make sure that no request blocks, whatever its queries? */
module ScanFleet {
  import opened Float32
  import opened TopK
  import opened Ranking
  import opened Collector
  import opened ScanProtocol
  import opened ScanSafety
  import opened ScanRuns
  import opened ScanTheorems
  import opened ScanProgress
  import opened AnswerOrder
  import opened ScanAdmission

  /** How a table of so many shards is served, and how many queries of a request
      are under way at once. */
  datatype Deployment = Deployment(shards: nat, limits: Limits, width: pos)

  /** The queries of a request. */
  ghost predicate Serves(d: Deployment, qs: seq<Query>) {
    forall a :: 0 <= a < |qs| ==> Accepted(qs[a]) && |qs[a].shards| == d.shards && qs[a].limits == d.limits
  }

  // ---- Shared slots ----

  function Total(xs: seq<nat>): nat {
    if xs == [] then 0 else Total(xs[..|xs| - 1]) + xs[|xs| - 1]
  }

  lemma {:induction false} TotalUpdate(xs: seq<nat>, a: nat, x: nat)
    requires a < |xs|
    ensures Total(xs[a := x]) + xs[a] == Total(xs) + x
  {
    var init, last := xs[..|xs| - 1], xs[|xs| - 1];
    if a < |xs| - 1 {
      TotalUpdate(init, a, x);
      assert xs[a := x][..|xs| - 1] == init[a := x];
    } else {
      assert xs[a := x][..|xs| - 1] == init;
    }
  }

  /** The slots of node `h` that one query's scans hold. */
  function HoldsOn(host: nat -> nat, s: System, h: nat): nat {
    CountOn(host, Holding(s.nodes), h, |s.nodes|)
  }

  function Held(host: nat -> nat, f: seq<System>, h: nat): seq<nat> {
    seq(|f|, a requires 0 <= a < |f| => HoldsOn(host, f[a], h))
  }

  function Taken(host: nat -> nat, f: seq<System>, h: nat): nat {
    Total(Held(host, f, h))
  }

  predicate Underway(s: System) {
    0 < s.streams && s.phase == Running
  }

  function Busy(f: seq<System>): seq<nat> {
    seq(|f|, a requires 0 <= a < |f| => if Underway(f[a]) then 1 else 0)
  }

  lemma TakenUpdate(host: nat -> nat, f: seq<System>, a: nat, s: System, h: nat)
    requires a < |f|
    ensures Taken(host, f[a := s], h) + HoldsOn(host, f[a], h) == Taken(host, f, h) + HoldsOn(host, s, h)
  {
    TotalUpdate(Held(host, f, h), a, HoldsOn(host, s, h));
    assert Held(host, f[a := s], h) == Held(host, f, h)[a := HoldsOn(host, s, h)];
  }

  lemma BusyUpdate(f: seq<System>, a: nat, s: System)
    requires a < |f|
    ensures Total(Busy(f[a := s])) + (if Underway(f[a]) then 1 else 0)
         == Total(Busy(f)) + (if Underway(s) then 1 else 0)
  {
    TotalUpdate(Busy(f), a, if Underway(s) then 1 else 0);
    assert Busy(f[a := s]) == Busy(f)[a := if Underway(s) then 1 else 0];
  }

  // ---- Runs ----

  ghost predicate RoomToOpen(d: Deployment, f: seq<System>, s: System) {
    && Taken(d.limits.host, f, d.limits.host(s.streams)) < d.limits.slots(d.limits.host(s.streams))
    && (s.streams == 0 ==> Total(Busy(f)) < d.width)
  }

  /** Query `a` can take the step: a stream opens only if no query leaves its
      node without a slot, and a query begins only if few enough are under way. */
  ghost predicate CanMove(d: Deployment, qs: seq<Query>, f: seq<System>, a: nat, step: Step)
    requires Serves(d, qs) && |f| == |qs| && a < |qs|
  {
    && Shaped(qs[a], f[a]) && Enabled(qs[a], f[a], step)
    && (step.Open? ==> RoomToOpen(d, f, f[a]))
  }

  ghost predicate FleetNext(d: Deployment, qs: seq<Query>, f: seq<System>, t: seq<System>, faults: bool)
    requires Serves(d, qs)
  {
    && |f| == |qs|
    && exists a, step :: 0 <= a < |qs| && CanMove(d, qs, f, a, step) && (faults || Benign(step))
                         && t == f[a := Apply(qs[a], f[a], step)]
  }

  function Beginning(qs: seq<Query>): seq<System> {
    seq(|qs|, a requires 0 <= a < |qs| => Init(qs[a]))
  }

  ghost predicate FleetNextAt(d: Deployment, qs: seq<Query>, run: seq<seq<System>>, faults: bool, n: nat)
    requires Serves(d, qs) && n + 1 < |run|
  {
    FleetNext(d, qs, run[n], run[n + 1], faults)
  }

  /** A run of all the queries, with or without failures. */
  ghost predicate IsFleetRun(d: Deployment, qs: seq<Query>, run: seq<seq<System>>, faults: bool)
    requires Serves(d, qs)
  {
    && run != [] && run[0] == Beginning(qs)
    && forall n: nat :: n + 1 < |run| ==> FleetNextAt(d, qs, run, faults, n)
  }

  ghost predicate Reached(q: Query, s: System, faults: bool)
    requires Accepted(q)
  {
    exists run: seq<System> ::
      (if faults then IsRun(q, run) else IsBenignRun(q, run)) && run[|run| - 1] == s
  }

  ghost predicate AllReached(d: Deployment, qs: seq<Query>, f: seq<System>, faults: bool)
    requires Serves(d, qs)
  {
    |f| == |qs| && forall a :: 0 <= a < |qs| ==> Reached(qs[a], f[a], faults)
  }

  lemma RunExtend(q: Query, run: seq<System>, step: Step) returns (next: seq<System>)
    requires Accepted(q) && IsRun(q, run) && Shaped(q, run[|run| - 1]) && Enabled(q, run[|run| - 1], step)
    ensures IsRun(q, next) && next == run + [Apply(q, run[|run| - 1], step)]
  {
    next := run + [Apply(q, run[|run| - 1], step)];
    forall n: nat | n + 1 < |next| ensures NextAt(q, next, n) {
      if n + 1 < |run| { assert NextAt(q, run, n); }
    }
  }

  lemma ReachedNext(q: Query, s: System, step: Step, faults: bool)
    requires Accepted(q) && Reached(q, s, faults) && Shaped(q, s) && Enabled(q, s, step) && (faults || Benign(step))
    ensures Reached(q, Apply(q, s, step), faults)
  {
    var run: seq<System> :| (if faults then IsRun(q, run) else IsBenignRun(q, run)) && run[|run| - 1] == s;
    if faults {
      var next := RunExtend(q, run, step);
    } else {
      var next := BenignExtend(q, run, step);
    }
  }

  lemma StartReached(q: Query, faults: bool)
    requires Accepted(q)
    ensures Reached(q, Init(q), faults)
  {
    var run := [Init(q)];
    assert IsRun(q, run) && IsBenignRun(q, run);
  }

  lemma MoveKeepsWidth(d: Deployment, qs: seq<Query>, f: seq<System>, a: nat, step: Step)
    requires Serves(d, qs) && |f| == |qs| && a < |qs| && CanMove(d, qs, f, a, step)
    requires Total(Busy(f)) <= d.width
    ensures Total(Busy(f[a := Apply(qs[a], f[a], step)])) <= d.width
  {
    BusyUpdate(f, a, Apply(qs[a], f[a], step));
    OnlyOpenBegins(qs[a], f[a], step);
  }

  lemma NextReaches(d: Deployment, qs: seq<Query>, f: seq<System>, t: seq<System>, faults: bool)
    requires Serves(d, qs) && FleetInv(d, qs, f, faults) && FleetNext(d, qs, f, t, faults)
    ensures FleetInv(d, qs, t, faults)
  {
    var a, step := MoveTaken(d, qs, f, t, faults);
    ReachedNext(qs[a], f[a], step, faults);
    MoveKeepsWidth(d, qs, f, a, step);
  }

  lemma MoveTaken(d: Deployment, qs: seq<Query>, f: seq<System>, t: seq<System>, faults: bool)
    returns (a: nat, step: Step)
    requires Serves(d, qs) && FleetNext(d, qs, f, t, faults)
    ensures |f| == |qs| && a < |qs| && CanMove(d, qs, f, a, step) && (faults || Benign(step))
    ensures t == f[a := Apply(qs[a], f[a], step)]
  {
    a, step :| 0 <= a < |qs| && CanMove(d, qs, f, a, step) && (faults || Benign(step))
               && t == f[a := Apply(qs[a], f[a], step)];
  }

  lemma OnlyOpenBegins(q: Query, s: System, step: Step)
    requires Accepted(q) && Shaped(q, s) && Enabled(q, s, step)
    ensures Underway(Apply(q, s, step)) ==> Underway(s) || (step.Open? && s.streams == 0)
  {
  }

  ghost predicate FleetInv(d: Deployment, qs: seq<Query>, f: seq<System>, faults: bool)
    requires Serves(d, qs)
  {
    AllReached(d, qs, f, faults) && Total(Busy(f)) <= d.width
  }

  lemma {:induction false} NoneBusy(f: seq<System>)
    requires forall a :: 0 <= a < |f| ==> !Underway(f[a])
    ensures Total(Busy(f)) == 0
  {
    if f != [] {
      NoneBusy(f[..|f| - 1]);
      assert Busy(f)[..|f| - 1] == Busy(f[..|f| - 1]);
    }
  }

  ghost predicate FleetOn(d: Deployment, qs: seq<Query>, faults: bool, f: seq<System>, g: seq<System>)
    requires Serves(d, qs)
  {
    FleetInv(d, qs, f, faults) ==> FleetInv(d, qs, g, faults)
  }

  lemma FleetNextKeeps(d: Deployment, qs: seq<Query>, run: seq<seq<System>>, faults: bool, n: nat)
    requires Serves(d, qs) && IsFleetRun(d, qs, run, faults) && n + 1 < |run|
    ensures FleetOn(d, qs, faults, run[n], run[n + 1])
  {
    assert FleetNextAt(d, qs, run, faults, n);
    if FleetInv(d, qs, run[n], faults) { NextReaches(d, qs, run[n], run[n + 1], faults); }
  }

  lemma {:induction false} FleetAlong(d: Deployment, qs: seq<Query>, states: seq<seq<System>>, faults: bool)
    requires Serves(d, qs) && states != [] && FleetInv(d, qs, states[0], faults)
    requires forall i :: 0 <= i < |states| - 1 ==> FleetOn(d, qs, faults, states[i], states[i + 1])
    ensures FleetInv(d, qs, states[|states| - 1], faults)
  {
    if 1 < |states| {
      FleetAlong(d, qs, states[..|states| - 1], faults);
      assert FleetOn(d, qs, faults, states[|states| - 2], states[|states| - 1]);
    }
  }

  lemma BeginningKeeps(d: Deployment, qs: seq<Query>, faults: bool)
    requires Serves(d, qs)
    ensures FleetInv(d, qs, Beginning(qs), faults)
  {
    forall a | 0 <= a < |qs| ensures Reached(qs[a], Beginning(qs)[a], faults) { StartReached(qs[a], faults); }
    NoneBusy(Beginning(qs));
  }

  lemma FleetRunKeeps(d: Deployment, qs: seq<Query>, run: seq<seq<System>>, faults: bool, n: nat)
    requires Serves(d, qs) && IsFleetRun(d, qs, run, faults) && n < |run|
    ensures FleetInv(d, qs, run[n], faults)
  {
    BeginningKeeps(d, qs, faults);
    forall i | 0 <= i < n ensures FleetOn(d, qs, faults, run[i], run[i + 1]) { FleetNextKeeps(d, qs, run, faults, i); }
    FleetAlong(d, qs, run[..n + 1], faults);
  }

  /** Queries under way together, failures among them included, do not disturb
      each other's answers. */
  lemma SharedAnswersAreExact(d: Deployment, qs: seq<Query>, run: seq<seq<System>>, n: nat, a: nat)
    requires Serves(d, qs) && IsFleetRun(d, qs, run, true) && n < |run| && a < |qs|
    ensures |run[n]| == |qs| && (run[n][a].phase.Returned? ==> Answered(qs[a], run[n][a]))
  {
    FleetRunKeeps(d, qs, run, true, n);
    var single: seq<System> :| IsRun(qs[a], single) && single[|single| - 1] == run[n][a];
    if run[n][a].phase.Returned? { RunsGiveAnswers(qs[a], single); }
  }

  // ---- Runs are finite ----

  ghost predicate AllShaped(qs: seq<Query>, f: seq<System>) {
    |f| == |qs| && forall a :: 0 <= a < |qs| ==> Shaped(qs[a], f[a])
  }

  ghost function Rest(qs: seq<Query>, f: seq<System>): seq<nat>
    requires AllShaped(qs, f)
  {
    seq(|qs|, a requires 0 <= a < |qs| => Remaining(qs[a], f[a]))
  }

  lemma ReachedInv(q: Query, s: System, faults: bool)
    requires Accepted(q) && Reached(q, s, faults)
    ensures Inv(q, s)
  {
    var run: seq<System> :| (if faults then IsRun(q, run) else IsBenignRun(q, run)) && run[|run| - 1] == s;
    if !faults { BenignRunsAreRuns(q, run); }
    RunKeepsInv(q, run, |run| - 1);
  }

  lemma FleetShaped(d: Deployment, qs: seq<Query>, f: seq<System>, faults: bool)
    requires Serves(d, qs) && FleetInv(d, qs, f, faults)
    ensures AllShaped(qs, f)
  {
    forall a | 0 <= a < |qs| ensures Shaped(qs[a], f[a]) { ReachedInv(qs[a], f[a], faults); }
  }

  lemma MoveShrinks(q: Query, s: System, step: Step)
    requires Accepted(q) && Inv(q, s) && Enabled(q, s, step)
    ensures Shaped(q, Apply(q, s, step)) && Remaining(q, Apply(q, s, step)) < Remaining(q, s)
  {
    StepUsesUp(q, s, step);
  }

  lemma RestUpdate(qs: seq<Query>, f: seq<System>, a: nat, s: System)
    requires AllShaped(qs, f) && a < |qs| && Shaped(qs[a], s)
    ensures AllShaped(qs, f[a := s])
    ensures Total(Rest(qs, f[a := s])) + Remaining(qs[a], f[a]) == Total(Rest(qs, f)) + Remaining(qs[a], s)
  {
    TotalUpdate(Rest(qs, f), a, Remaining(qs[a], s));
    assert Rest(qs, f[a := s]) == Rest(qs, f)[a := Remaining(qs[a], s)];
  }

  /** What is left to do, if the states are well formed. */
  ghost predicate Shrinks(qs: seq<Query>, f: seq<System>, t: seq<System>) {
    AllShaped(qs, f) && AllShaped(qs, t) && Total(Rest(qs, t)) < Total(Rest(qs, f))
  }

  lemma NextShrinks(d: Deployment, qs: seq<Query>, f: seq<System>, t: seq<System>, faults: bool)
    requires Serves(d, qs) && FleetInv(d, qs, f, faults) && FleetNext(d, qs, f, t, faults)
    ensures Shrinks(qs, f, t)
  {
    var a, step := MoveTaken(d, qs, f, t, faults);
    FleetShaped(d, qs, f, faults);
    ReachedInv(qs[a], f[a], faults);
    MoveShrinks(qs[a], f[a], step);
    RestUpdate(qs, f, a, t[a]);
  }

  lemma {:induction false} ShrinksAlong(qs: seq<Query>, fleets: seq<seq<System>>)
    requires fleets != [] && AllShaped(qs, fleets[0])
    requires forall n :: 0 <= n < |fleets| - 1 ==> Shrinks(qs, fleets[n], fleets[n + 1])
    ensures AllShaped(qs, fleets[|fleets| - 1])
    ensures Total(Rest(qs, fleets[|fleets| - 1])) + |fleets| <= Total(Rest(qs, fleets[0])) + 1
  {
    if 1 < |fleets| {
      ShrinksAlong(qs, fleets[..|fleets| - 1]);
      assert Shrinks(qs, fleets[|fleets| - 2], fleets[|fleets| - 1]);
    }
  }

  /** The length of every run of a request is bounded by the sizes of its queries. */
  lemma FleetRunsAreFinite(d: Deployment, qs: seq<Query>, run: seq<seq<System>>, faults: bool)
    requires Serves(d, qs) && IsFleetRun(d, qs, run, faults)
    ensures AllShaped(qs, Beginning(qs)) && |run| <= Total(Rest(qs, Beginning(qs))) + 1
  {
    FleetRunKeeps(d, qs, run, faults, 0);
    FleetShaped(d, qs, run[0], faults);
    forall n: nat | n < |run| - 1 ensures Shrinks(qs, run[n], run[n + 1]) {
      FleetRunKeeps(d, qs, run, faults, n);
      assert FleetNextAt(d, qs, run, faults, n);
      NextShrinks(d, qs, run[n], run[n + 1], faults);
    }
    ShrinksAlong(qs, run);
  }

  // ---- Enough slots ----

  /** The other shards of the table on shard `j`'s node. */
  function Neighbours(d: Deployment, j: nat): nat
    requires j < d.shards
  {
    var here := CountOn(d.limits.host, All(d.shards), d.limits.host(j), d.shards);
    if here == 0 then 0 else here - 1
  }

  /** Every node has a slot to spare when each query under way holds one for all
      its shards there but one. */
  ghost predicate Roomy(d: Deployment) {
    forall j :: 0 <= j < d.shards ==> Times(Neighbours(d, j), d.width) < d.limits.slots(d.limits.host(j))
  }

  /** No mark beyond `m` counts. */
  lemma {:induction false} CountStops(host: nat -> nat, marked: seq<bool>, h: nat, m: nat, n: nat)
    requires m <= n <= |marked| && forall k :: m <= k < n ==> !marked[k]
    ensures CountOn(host, marked, h, n) == CountOn(host, marked, h, m)
    decreases n
  {
    if m < n { CountStops(host, marked, h, m, n - 1); }
  }

  lemma HeldBehind(d: Deployment, q: Query, s: System, j: nat)
    requires Accepted(q) && |q.shards| == d.shards && Inv(q, s) && s.phase == Running && s.streams <= j < d.shards
    ensures HoldsOn(d.limits.host, s, d.limits.host(j)) <= Neighbours(d, j)
  {
    MarksBehind(d, Holding(s.nodes), s.streams, j);
  }

  lemma MarksBehind(d: Deployment, marked: seq<bool>, m: nat, j: nat)
    requires |marked| == d.shards && m <= j < d.shards && forall k :: m <= k < d.shards ==> !marked[k]
    ensures CountOn(d.limits.host, marked, d.limits.host(j), d.shards) <= Neighbours(d, j)
  {
    var host, h, all := d.limits.host, d.limits.host(j), All(d.shards);
    CountStops(host, marked, h, m, d.shards);
    CountGrows(host, marked, all, h, m, j);
    assert CountOn(host, all, h, j + 1) == CountOn(host, all, h, j) + 1;
    CountGrows(host, all, all, h, j + 1, d.shards);
  }

  lemma NothingHeld(host: nat -> nat, q: Query, s: System, h: nat)
    requires Accepted(q) && Inv(q, s) && s.phase != Failed && !Underway(s)
    ensures HoldsOn(host, s, h) == 0
  {
    if s.phase.Returned? {
      UncertifiedAll(s.collector.completed);
      forall i | 0 <= i < |s.nodes| ensures s.nodes[i].ended {
        assert NodeInv(q, i, s.nodes[i], s.collector.completed[i], s.collector.published, s.seen);
      }
    }
    CountStops(host, Holding(s.nodes), h, 0, |s.nodes|);
  }

  lemma {:induction false} TotalBound(xs: seq<nat>, busy: seq<nat>, c: nat)
    requires |xs| == |busy| && forall a :: 0 <= a < |xs| ==> xs[a] <= (if busy[a] == 0 then 0 else c)
    ensures Total(xs) <= Times(c, Total(busy))
  {
    if xs != [] {
      var n := |xs| - 1;
      TotalBound(xs[..n], busy[..n], c);
      if busy[n] != 0 { TimesMonotone(c, Total(busy[..n]) + 1, Total(busy)); }
    }
  }

  /** No failure-free step is left. */
  ghost predicate FleetAtRest(d: Deployment, qs: seq<Query>, f: seq<System>)
    requires Serves(d, qs)
  {
    |f| == |qs| && forall a, step :: 0 <= a < |qs| && CanMove(d, qs, f, a, step) ==> !Benign(step)
  }

  lemma BenignReached(q: Query, s: System)
    requires Accepted(q) && Reached(q, s, false)
    ensures Inv(q, s) && s.phase != Failed
    ensures s.phase.Returned? ==> Answered(q, s)
  {
    var run: seq<System> :| IsBenignRun(q, run) && run[|run| - 1] == s;
    BenignRunKeeps(q, run, |run| - 1);
    BenignRunsAreRuns(q, run);
    if s.phase.Returned? { RunsGiveAnswers(q, run); }
  }

  /** Some query under way is furthest. */
  lemma {:induction false} Furthest(f: seq<System>, n: nat) returns (a: nat)
    requires n <= |f| && exists b :: 0 <= b < n && Underway(f[b])
    ensures a < n && Underway(f[a])
    ensures forall b :: 0 <= b < n && Underway(f[b]) ==> f[b].streams <= f[a].streams
  {
    if exists b :: 0 <= b < n - 1 && Underway(f[b]) {
      a := Furthest(f, n - 1);
      if Underway(f[n - 1]) && f[a].streams < f[n - 1].streams { a := n - 1; }
    } else {
      a := n - 1;
    }
  }

  /** The furthest query finds a slot on a roomy deployment. */
  lemma FurthestHasRoom(d: Deployment, qs: seq<Query>, f: seq<System>, a: nat)
    requires Serves(d, qs) && Roomy(d) && FleetInv(d, qs, f, false) && a < |qs|
    requires f[a].streams < d.shards
    requires forall b :: 0 <= b < |f| && Underway(f[b]) ==> f[b].streams <= f[a].streams
    ensures Taken(d.limits.host, f, d.limits.host(f[a].streams)) < d.limits.slots(d.limits.host(f[a].streams))
  {
    var j := f[a].streams;
    var h, c := d.limits.host(j), Neighbours(d, j);
    forall b | 0 <= b < |f| ensures HoldsOn(d.limits.host, f[b], h) <= if Busy(f)[b] == 0 then 0 else c {
      BenignReached(qs[b], f[b]);
      if Underway(f[b]) { HeldBehind(d, qs[b], f[b], j); } else { NothingHeld(d.limits.host, qs[b], f[b], h); }
    }
    TotalBound(Held(d.limits.host, f, h), Busy(f), c);
    TimesMonotone(c, Total(Busy(f)), d.width);
  }

  lemma RoomyOpens(d: Deployment, qs: seq<Query>, f: seq<System>, a: nat)
    requires Serves(d, qs) && Roomy(d) && FleetInv(d, qs, f, false) && a < |qs|
    requires f[a].phase == Running && f[a].streams < d.shards
    requires forall b :: 0 <= b < |f| && Underway(f[b]) ==> f[b].streams <= f[a].streams
    requires f[a].streams == 0 ==> Total(Busy(f)) == 0
    ensures CanMove(d, qs, f, a, Open)
  {
    FurthestHasRoom(d, qs, f, a);
    BenignReached(qs[a], f[a]);
    var host, h := d.limits.host, d.limits.host(f[a].streams);
    OwnShare(host, f, a, h);
    CountStops(host, Holding(f[a].nodes), h, f[a].streams, |f[a].nodes|);
  }

  lemma {:induction false} PartOfTotal(xs: seq<nat>, a: nat)
    requires a < |xs|
    ensures xs[a] <= Total(xs)
  {
    if a < |xs| - 1 { PartOfTotal(xs[..|xs| - 1], a); }
  }

  lemma OwnShare(host: nat -> nat, f: seq<System>, a: nat, h: nat)
    requires a < |f|
    ensures HoldsOn(host, f[a], h) <= Taken(host, f, h)
  {
    PartOfTotal(Held(host, f, h), a);
  }

  /** While some query runs, some step that is no failure is possible. */
  lemma RunningCanMove(d: Deployment, qs: seq<Query>, f: seq<System>, a: nat)
    requires Serves(d, qs) && Roomy(d) && FleetInv(d, qs, f, false) && a < |qs| && f[a].phase == Running
    ensures !FleetAtRest(d, qs, f)
  {
    if exists b :: 0 <= b < |f| && Underway(f[b]) {
      var b := Furthest(f, |f|);
      FurthestMoves(d, qs, f, b);
    } else {
      NoneBusy(f);
      RoomyOpens(d, qs, f, a);
      assert Benign(Open);
    }
  }

  /** On a roomy deployment a failure-free run of any queries that cannot be
      prolonged has answered all of them. */
  lemma RoomyNeverBlocks(d: Deployment, qs: seq<Query>, run: seq<seq<System>>, a: nat)
    requires Serves(d, qs) && Roomy(d) && IsFleetRun(d, qs, run, false) && a < |qs|
    requires FleetAtRest(d, qs, run[|run| - 1])
    ensures Answered(qs[a], run[|run| - 1][a])
  {
    var f := run[|run| - 1];
    FleetRunKeeps(d, qs, run, false, |run| - 1);
    BenignReached(qs[a], f[a]);
    if f[a].phase == Running { RunningCanMove(d, qs, f, a); }
  }

  lemma FurthestMoves(d: Deployment, qs: seq<Query>, f: seq<System>, b: nat)
    requires Serves(d, qs) && Roomy(d) && FleetInv(d, qs, f, false) && b < |qs| && Underway(f[b])
    requires forall e :: 0 <= e < |f| && Underway(f[e]) ==> f[e].streams <= f[b].streams
    ensures !FleetAtRest(d, qs, f)
  {
    BenignReached(qs[b], f[b]);
    if f[b].streams < d.shards {
      RoomyOpens(d, qs, f, b);
      assert CanMove(d, qs, f, b, Open) && Benign(Open);
    } else {
      OpenedMoves(qs[b], f[b]);
      var step :| Enabled(qs[b], f[b], step) && Benign(step);
      assert CanMove(d, qs, f, b, step);
    }
  }
}
