/** Persists of one shard that overlap. Nothing makes them wait for each other: a
    retry can start one while the persist of its dropped request is still at
    work. What decides is the generation each one set out to write. */
module PersistOverlap {
  import opened Ranking
  import Store

  /** How far a persist has come: its target chosen; its directory renamed into
      place; CURRENT moved; the registry told. */
  datatype Stage = Chosen | Activated | Pointed | Counted

  datatype Flight = Flight(target: nat, stage: Stage)

  /** The generation directories, CURRENT, the registry's generation and the
      persists under way. */
  datatype Shard = Shard(gens: set<nat>, current: Option<nat>, generation: nat, flights: seq<Flight>)

  datatype Step = Begin | Forward(at: nat) | Sweep(at: nat, gen: nat) | Leave(at: nat) | Reopen

  function Init(): Shard {
    Shard({}, None, 0, [])
  }

  /** What a restart needs: the directory CURRENT names is there. */
  predicate Restorable(s: Shard) {
    s.current.Some? ==> s.current.value in s.gens
  }

  predicate Enabled(s: Shard, step: Step) {
    match step
    case Begin => true
    case Forward(at) => at < |s.flights| && s.flights[at].stage != Counted
    case Sweep(at, gen) =>
      && at < |s.flights| && s.flights[at].stage == Counted
      && gen in s.gens && Store.Stale(gen, s.flights[at].target)
    case Leave(at) => at < |s.flights|
    case Reopen => s.current.Some? && Restorable(s)
  }

  function Without(flights: seq<Flight>, at: nat): seq<Flight>
    requires at < |flights|
  {
    flights[..at] + flights[at + 1..]
  }

  function Apply(s: Shard, step: Step): Shard
    requires Enabled(s, step)
  {
    match step
    case Begin => s.(flights := s.flights + [Flight(s.generation + 1, Chosen)])
    case Forward(at) =>
      var f := s.flights[at];
      (match f.stage
       case Chosen =>
         // A directory that is there already is found by the check or by the rename.
         if f.target in s.gens then s.(flights := Without(s.flights, at))
         else s.(gens := s.gens + {f.target}, flights := s.flights[at := f.(stage := Activated)])
       case Activated => s.(current := Some(f.target), flights := s.flights[at := f.(stage := Pointed)])
       case Pointed => s.(generation := f.target, flights := s.flights[at := f.(stage := Counted)])
       case Counted => s)
    case Sweep(at, gen) => s.(gens := s.gens - {gen})
    case Leave(at) => s.(flights := Without(s.flights, at))
    case Reopen => s.(generation := s.current.value, flights := [])
  }

  ghost predicate Next(s: Shard, t: Shard) {
    exists step :: Enabled(s, step) && t == Apply(s, step)
  }

  /** Step `n` of the run is one the machine can take. */
  ghost predicate NextAt(run: seq<Shard>, n: nat)
    requires n + 1 < |run|
  {
    Next(run[n], run[n + 1])
  }

  ghost predicate IsRun(run: seq<Shard>) {
    && run != [] && run[0] == Init()
    && forall n: nat :: n + 1 < |run| ==> NextAt(run, n)
  }

  // ---- Harmless overlaps ----

  /** Some persist still has to rename its directory into place when two later
      generations have come about. */
  predicate Late(s: Shard, f: Flight) {
    f.stage == Chosen && f.target + 2 <= s.generation
  }

  ghost predicate Prompt(s: Shard) {
    forall i :: 0 <= i < |s.flights| ==> !Late(s, s.flights[i])
  }

  predicate Active(f: Flight) {
    f.stage == Activated || f.stage == Pointed
  }

  ghost predicate FlightSound(s: Shard, f: Flight) {
    match f.stage
    case Chosen => 1 <= f.target <= s.generation + 1
    case Activated => f.target == s.generation + 1 && f.target in s.gens && s.current != Some(f.target)
    case Pointed => f.target == s.generation + 1 && s.current == Some(f.target)
    case Counted => f.target <= s.generation
  }

  ghost predicate Inv(s: Shard) {
    && Restorable(s)
    && (s.current.Some? ==> s.generation <= s.current.value <= s.generation + 1)
    && (0 < s.generation ==> s.current.Some?)
    && (forall g :: g in s.gens ==> g <= s.generation + 1)
    && (forall g: nat :: 1 <= g <= s.generation <= g + 1 ==> g in s.gens)
    && (forall i :: 0 <= i < |s.flights| ==> FlightSound(s, s.flights[i]))
    && (forall i, j :: 0 <= i < j < |s.flights| ==> !Active(s.flights[i]) || !Active(s.flights[j]))
  }

  lemma LeaveKeeps(s: Shard, at: nat)
    requires Inv(s) && at < |s.flights|
    ensures Inv(s.(flights := Without(s.flights, at)))
  {
    var rest := Without(s.flights, at);
    forall i | 0 <= i < |rest| ensures rest[i] == s.flights[if i < at then i else i + 1] {}
  }

  lemma ForwardKeeps(s: Shard, at: nat)
    requires Inv(s) && Prompt(s) && Enabled(s, Forward(at))
    ensures Inv(Apply(s, Forward(at)))
  {
    var f := s.flights[at];
    assert FlightSound(s, f) && !Late(s, f);
    if f.stage == Chosen && f.target in s.gens { LeaveKeeps(s, at); }
  }

  lemma StepKeeps(s: Shard, step: Step)
    requires Inv(s) && Prompt(s) && Enabled(s, step)
    ensures Inv(Apply(s, step))
    ensures s.current.Some? ==>
              Apply(s, step).current.Some? && s.current.value <= Apply(s, step).current.value
  {
    match step {
      case Forward(at) =>
        assert FlightSound(s, s.flights[at]);
        ForwardKeeps(s, at);
      case Sweep(at, gen) => assert FlightSound(s, s.flights[at]);
      case Leave(at) => LeaveKeeps(s, at);
      case _ =>
    }
  }

  lemma StepTaken(run: seq<Shard>, n: nat) returns (step: Step)
    requires IsRun(run) && n + 1 < |run|
    ensures Enabled(run[n], step) && run[n + 1] == Apply(run[n], step)
  {
    assert NextAt(run, n);
    step :| Enabled(run[n], step) && run[n + 1] == Apply(run[n], step);
  }

  /** However many persists overlap, as long as none is still to rename its
      directory when two later generations have come about, CURRENT never moves
      back and a restart always finds what it names. */
  lemma {:induction false} OverlapIsHarmless(run: seq<Shard>, n: nat, k: nat)
    requires IsRun(run) && n <= k < |run|
    requires forall i, m :: 0 <= i < k && 0 <= m < |run[i].flights| ==>
               run[i].flights[m].stage == Chosen ==> run[i].generation < run[i].flights[m].target + 2
    ensures Inv(run[k]) && Restorable(run[k])
    ensures run[n].current.Some? ==> run[k].current.Some? && run[n].current.value <= run[k].current.value
    decreases k
  {
    if 0 < k {
      OverlapIsHarmless(run, if n < k then n else k - 1, k - 1);
      var step := StepTaken(run, k - 1);
      StepKeeps(run[k - 1], step);
    }
  }

  // ---- And the other ones ----

  lemma Extend(run: seq<Shard>, step: Step) returns (next: seq<Shard>)
    requires IsRun(run) && Enabled(run[|run| - 1], step)
    ensures IsRun(next) && next == run + [Apply(run[|run| - 1], step)]
  {
    next := run + [Apply(run[|run| - 1], step)];
    forall n: nat | n + 1 < |next| ensures NextAt(next, n) {
      if n + 1 < |run| { assert NextAt(run, n); }
    }
  }

  /** One undisturbed persist, up to its clean-up. */
  lemma CountOne(run: seq<Shard>) returns (next: seq<Shard>)
    requires IsRun(run) && run[|run| - 1].generation + 1 !in run[|run| - 1].gens
    ensures IsRun(next) && run <= next
    ensures var s := run[|run| - 1]; var g := s.generation + 1;
            next[|next| - 1] == Shard(s.gens + {g}, Some(g), g, s.flights + [Flight(g, Counted)])
  {
    var s := run[|run| - 1];
    var at, f := |s.flights|, Flight(s.generation + 1, Chosen);
    next := Extend(run, Begin);
    next := Extend(next, Forward(at));
    next := Extend(next, Forward(at));
    next := Extend(next, Forward(at));
    assert next[|next| - 1].flights == s.flights + [f.(stage := Counted)];
  }

  /** And with a clean-up that removes `gen`. */
  lemma WholePersist(run: seq<Shard>, gen: nat) returns (next: seq<Shard>)
    requires IsRun(run)
    requires var s := run[|run| - 1]; s.generation + 1 !in s.gens && gen in s.gens && gen < s.generation
    ensures IsRun(next) && run <= next
    ensures var s := run[|run| - 1]; var g := s.generation + 1;
            next[|next| - 1] == Shard(s.gens + {g} - {gen}, Some(g), g, s.flights)
  {
    var at := |run[|run| - 1].flights|;
    next := CountOne(run);
    next := Extend(next, Sweep(at, gen));
    next := Extend(next, Leave(at));
    assert next[|next| - 1].flights == run[|run| - 1].flights;
  }

  /** A persist that is late finds its directory swept away. */
  lemma SweptAway(run: seq<Shard>, at: nat) returns (next: seq<Shard>)
    requires IsRun(run) && Inv(run[|run| - 1]) && at < |run[|run| - 1].flights|
    requires var s := run[|run| - 1]; Late(s, s.flights[at]) && s.generation + 1 !in s.gens
    ensures IsRun(next) && run <= next
    ensures var s, t := run[|run| - 1], next[|next| - 1];
            && t.flights == s.flights && s.generation <= t.generation && s.flights[at].target !in t.gens
            && (forall g :: g in t.gens ==> g <= t.generation) && t.current == Some(t.generation)
  {
    var s := run[|run| - 1];
    if s.flights[at].target in s.gens {
      next := WholePersist(run, s.flights[at].target);
    } else {
      next := run;
    }
  }

  /** A late persist on a shard that can still be persisted: its stale directory
      comes back, a later clean-up takes it away once more, and CURRENT moves back
      to it. No restart gets past that. */
  lemma LatePersistStrands(run: seq<Shard>, at: nat) returns (next: seq<Shard>, n: nat)
    requires IsRun(run) && Inv(run[|run| - 1]) && at < |run[|run| - 1].flights|
    requires var s := run[|run| - 1]; Late(s, s.flights[at]) && s.generation + 1 !in s.gens
    ensures IsRun(next) && run <= next && n < |next|
    ensures var s, t := next[n], next[|next| - 1];
            s.current.Some? && t.current.Some? && t.current.value < s.current.value && !Restorable(t)
  {
    var target := run[|run| - 1].flights[at].target;
    next := SweptAway(run, at);
    var before := next;
    next := Extend(next, Forward(at));
    next := WholePersist(next, target);
    n := |next| - 1;
    var stale := next;
    next := Extend(next, Forward(at));
    assert next[n] == stale[n];
  }

  /** Such a run: one persist hangs while five others come and go. */
  lemma SomePersistStrands() returns (run: seq<Shard>)
    ensures IsRun(run) && !Restorable(run[|run| - 1])
  {
    run := Extend([Init()], Begin);
    run := CountOne(run);
    run := CountOne(run);
    run := CountOne(run);
    var s := run[|run| - 1];
    assert s == Shard({1, 2, 3}, Some(3), 3,
                      [Flight(1, Chosen), Flight(1, Counted), Flight(2, Counted), Flight(3, Counted)]);
    var n;
    run, n := LatePersistStrands(run, 0);
  }
}
