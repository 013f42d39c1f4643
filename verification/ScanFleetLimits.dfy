/** Without that many slots some request blocks: queries that clog one node in
    turn, and the exact condition that comes of it. */
module ScanFleetLimits {
  import opened Float32
  import opened Ranking
  import opened Collector
  import opened ScanProtocol
  import opened ScanSafety
  import opened ScanRuns
  import opened ScanProgress
  import opened ScanAdmission
  import opened ScanFleet

  // ---- A query that clogs a node where one wants it to ----

  /** More rows than fit on the way, all of them owed. */
  function FullShard(capacity: nat): Shard {
    Shard(seq(capacity + 1, _ => ScoredRow(POS_ZERO, 0, true)), false)
  }

  /** One of the first `c` shards of node `h`. */
  predicate Chosen(d: Deployment, h: nat, c: nat, i: nat)
    requires i <= d.shards
  {
    d.limits.host(i) == h && CountOn(d.limits.host, All(d.shards), h, i) < c
  }

  /** The first `c` shards of node `h` clog, and the others are empty. */
  function ClogQuery(d: Deployment, h: nat, c: nat): Query {
    Query(seq(d.shards, i requires 0 <= i < d.shards =>
            if Chosen(d, h, c, i) then FullShard(d.limits.capacity) else Shard([], false)),
          Options(1, false, None, false), d.limits)
  }

  lemma FullIsEligible(q: Query, i: nat, j: nat)
    requires HasRow(q, i, j) && q.shards[i] == FullShard(q.limits.capacity) && q.options.initialFloor.None?
    ensures Eligible(q, i, j)
  {
  }

  lemma {:induction false} AllOwed(q: Query, i: nat, n: nat)
    requires i < |q.shards| && n <= |q.shards[i].rows|
    requires forall j: nat :: j < |q.shards[i].rows| ==> Eligible(q, i, j)
    ensures |EligibleSlots(q, i, n)| == n
  {
    if n > 0 {
      AllOwed(q, i, n - 1);
      OwedNext(q, i, n - 1);
    }
  }

  lemma OwedOfFull(q: Query, i: nat, n: nat)
    requires i < |q.shards| && q.shards[i] == FullShard(q.limits.capacity) && n <= |q.shards[i].rows|
    requires q.options.initialFloor.None?
    ensures |EligibleSlots(q, i, n)| == n
  {
    forall j: nat | j < |q.shards[i].rows| ensures Eligible(q, i, j) { FullIsEligible(q, i, j); }
    AllOwed(q, i, n);
  }

  lemma ClogsChosen(d: Deployment, h: nat, c: nat, i: nat)
    requires i < d.shards
    ensures Clogs(ClogQuery(d, h, c), i) <==> Chosen(d, h, c, i)
  {
    var q := ClogQuery(d, h, c);
    if Chosen(d, h, c, i) { OwedOfFull(q, i, d.limits.capacity + 1); }
  }

  function Min(a: nat, b: nat): nat {
    if a < b then a else b
  }

  lemma {:induction false} BlockersChosen(d: Deployment, h: nat, c: nat, g: nat, j: nat)
    requires j <= d.shards
    ensures CountOn(d.limits.host, Blockers(ClogQuery(d, h, c)), g, j)
         == if g == h then Min(c, CountOn(d.limits.host, All(d.shards), h, j)) else 0
  {
    if j > 0 {
      BlockersChosen(d, h, c, g, j - 1);
      ClogsChosen(d, h, c, j - 1);
    }
  }

  /** The next shard of node `h` after its first `c`. */
  lemma {:induction false} PlaceOf(d: Deployment, h: nat, c: nat, n: nat) returns (j: nat)
    requires n <= d.shards && c < CountOn(d.limits.host, All(d.shards), h, n)
    ensures j < n && d.limits.host(j) == h && CountOn(d.limits.host, All(d.shards), h, j) == c
  {
    if CountOn(d.limits.host, All(d.shards), h, n - 1) == c {
      j := n - 1;
    } else {
      j := PlaceOf(d, h, c, n - 1);
    }
  }

  // ---- The same query with another slot count on that node ----

  function SlotsBut(limits: Limits, h: nat, slots: pos, g: nat): pos {
    if g == h then slots else limits.slots(g)
  }

  function Resized(q: Query, h: nat, slots: pos): Query {
    q.(limits := q.limits.(slots := (g: nat) => SlotsBut(q.limits, h, slots, g)))
  }

  lemma {:induction false} SameSlots(q: Query, h: nat, slots: pos, i: nat, n: nat)
    requires i < |q.shards| && n <= |q.shards[i].rows|
    ensures EligibleSlots(Resized(q, h, slots), i, n) == EligibleSlots(q, i, n)
  {
    if n > 0 { SameSlots(q, h, slots, i, n - 1); }
  }

  lemma SameClogs(q: Query, h: nat, slots: pos)
    ensures Blockers(Resized(q, h, slots)) == Blockers(q)
    ensures forall i: nat :: i < |q.shards| ==> (Clogs(Resized(q, h, slots), i) <==> Clogs(q, i))
  {
    forall i: nat | i < |q.shards| ensures Clogs(Resized(q, h, slots), i) <==> Clogs(q, i) {
      SameSlots(q, h, slots, i, |q.shards[i].rows|);
    }
  }

  lemma SameSettled(q: Query, h: nat, slots: pos, s: System, j: nat)
    ensures SettledUpTo(Resized(q, h, slots), s, j, j) <==> SettledUpTo(q, s, j, j)
  {
    SameClogs(q, h, slots);
    var r := Resized(q, h, slots);
    if Shaped(q, s) && j <= |q.shards| {
      forall k: nat | k < j ensures Settled(r, k, s.nodes[k]) <==> Settled(q, k, s.nodes[k]) {}
    }
  }

  /** Slots decide whether a stream opens, and nothing else. */
  lemma SameStep(q: Query, h: nat, slots: pos, s: System, step: Step)
    requires Accepted(q) && Shaped(q, s)
    ensures Accepted(Resized(q, h, slots)) && Shaped(Resized(q, h, slots), s)
    ensures !step.Open? ==> (Enabled(Resized(q, h, slots), s, step) <==> Enabled(q, s, step))
    ensures Enabled(Resized(q, h, slots), s, step) && Enabled(q, s, step) ==>
              Apply(Resized(q, h, slots), s, step) == Apply(q, s, step)
  {
  }

  // ---- One query of many, up to where it waits ----

  /** What the others hold leaves the resized query its slots. */
  ghost predicate Leaves(d: Deployment, f: seq<System>, h: nat, slots: pos) {
    && Taken(d.limits.host, f, h) + slots <= d.limits.slots(h)
    && forall g: nat :: g != h ==> Taken(d.limits.host, f, g) == 0
  }

  lemma UntouchedHold(host: nat -> nat, q: Query, g: nat)
    ensures HoldsOn(host, Init(q), g) == 0
  {
    CountStops(host, Holding(Init(q).nodes), g, 0, |q.shards|);
  }

  /** A step of the resized query alone is one of the fleet. */
  lemma EmbedStep(d: Deployment, qs: seq<Query>, f: seq<System>, a: nat, h: nat, slots: pos, s: System, step: Step)
    requires Serves(d, qs) && |f| == |qs| && a < |qs| && f[a] == Init(qs[a])
    requires Total(Busy(f)) < d.width && Leaves(d, f, h, slots)
    requires Accepted(Resized(qs[a], h, slots)) && Inv(Resized(qs[a], h, slots), s)
    requires Enabled(Resized(qs[a], h, slots), s, step)
    ensures CanMove(d, qs, f[a := s], a, step)
    ensures Apply(Resized(qs[a], h, slots), s, step) == Apply(qs[a], s, step)
  {
    var q, now := qs[a], f[a := s];
    if step.Open? {
      var host, g := d.limits.host, d.limits.host(s.streams);
      UntouchedHold(host, q, g);
      TakenUpdate(host, f, a, s, g);
      CountStops(host, Holding(s.nodes), g, s.streams, |s.nodes|);
      BusyUpdate(f, a, s);
    }
    SameStep(q, h, slots, s, step);
  }

  lemma FleetExtend(d: Deployment, qs: seq<Query>, run: seq<seq<System>>, a: nat, step: Step)
    returns (next: seq<seq<System>>)
    requires Serves(d, qs) && IsFleetRun(d, qs, run, false) && a < |qs| && |run[|run| - 1]| == |qs|
    requires CanMove(d, qs, run[|run| - 1], a, step) && Benign(step)
    ensures var f := run[|run| - 1];
            IsFleetRun(d, qs, next, false) && next == run + [f[a := Apply(qs[a], f[a], step)]]
  {
    var f := run[|run| - 1];
    next := run + [f[a := Apply(qs[a], f[a], step)]];
    forall n: nat | n + 1 < |next| ensures FleetNextAt(d, qs, next, false, n) {
      if n + 1 < |run| { assert FleetNextAt(d, qs, run, false, n); }
    }
  }

  /** The query alone, step for step, while the others stay where they are. */
  lemma {:induction false} Embed(
    d: Deployment, qs: seq<Query>, fleet: seq<seq<System>>, a: nat, h: nat, slots: pos, run: seq<System>, n: nat)
    returns (next: seq<seq<System>>)
    requires Serves(d, qs) && IsFleetRun(d, qs, fleet, false) && a < |qs|
    requires Embeds(d, qs, fleet[|fleet| - 1], a, h, slots)
    requires Accepted(Resized(qs[a], h, slots)) && IsBenignRun(Resized(qs[a], h, slots), run) && n < |run|
    ensures IsFleetRun(d, qs, next, false) && next[|next| - 1] == fleet[|fleet| - 1][a := run[n]]
  {
    if n == 0 {
      next := fleet;
      assert fleet[|fleet| - 1][a := run[0]] == fleet[|fleet| - 1];
    } else {
      next := Embed(d, qs, fleet, a, h, slots, run, n - 1);
      var step := EmbedNext(d, qs, fleet[|fleet| - 1], a, h, slots, run, n - 1);
      next := FleetExtend(d, qs, next, a, step);
    }
  }

  ghost predicate Embeds(d: Deployment, qs: seq<Query>, f: seq<System>, a: nat, h: nat, slots: pos)
    requires a < |qs|
  {
    |f| == |qs| && f[a] == Init(qs[a]) && Total(Busy(f)) < d.width && Leaves(d, f, h, slots)
  }

  lemma EmbedNext(
    d: Deployment, qs: seq<Query>, f: seq<System>, a: nat, h: nat, slots: pos, run: seq<System>, n: nat)
    returns (step: Step)
    requires Serves(d, qs) && a < |qs| && Embeds(d, qs, f, a, h, slots)
    requires Accepted(Resized(qs[a], h, slots)) && IsBenignRun(Resized(qs[a], h, slots), run) && n + 1 < |run|
    ensures CanMove(d, qs, f[a := run[n]], a, step) && Benign(step) && run[n + 1] == Apply(qs[a], run[n], step)
  {
    BenignRunKeeps(Resized(qs[a], h, slots), run, n);
    step := BenignStepTaken(Resized(qs[a], h, slots), run, n);
    EmbedStep(d, qs, f, a, h, slots, run[n], step);
  }

  // ---- Query after query, until the node is full ----

  /** The query has its first `c` shards of node `h` clogged and wants the next. */
  ghost predicate WaitsOn(d: Deployment, h: nat, c: nat, s: System) {
    && s.streams < d.shards && d.limits.host(s.streams) == h
    && CountOn(d.limits.host, All(d.shards), h, s.streams) == c
    && SettledUpTo(ClogQuery(d, h, c), s, s.streams, s.streams)
  }

  lemma WaitingHolds(d: Deployment, h: nat, c: nat, s: System, g: nat)
    requires WaitsOn(d, h, c, s)
    ensures HoldsOn(d.limits.host, s, g) == if g == h then c else 0
  {
    var q, j, marked := ClogQuery(d, h, c), s.streams, Holding(s.nodes);
    forall k: nat | k < j ensures marked[k] == Blockers(q)[k] { assert Settled(q, k, s.nodes[k]); }
    assert marked[..j] == Blockers(q)[..j];
    SameMarks(d.limits.host, marked, Blockers(q), g, j);
    forall k | j <= k < |marked| ensures !marked[k] { assert s.nodes[k] == Untouched(q); }
    CountStops(d.limits.host, marked, g, j, |marked|);
    BlockersChosen(d, h, c, g, j);
  }

  /** Before it waits the query is never short, given slots for what it clogs. */
  lemma NotShortBefore(d: Deployment, h: nat, c: nat, slots: pos, j: nat, k: nat)
    requires k < j <= d.shards && c <= slots && CountOn(d.limits.host, All(d.shards), h, j) == c
    ensures !Short(Resized(ClogQuery(d, h, c), h, slots), k)
  {
    var host, all := d.limits.host, All(d.shards);
    SameClogs(ClogQuery(d, h, c), h, slots);
    BlockersChosen(d, h, c, host(k), k);
    if host(k) == h {
      assert CountOn(host, all, h, k + 1) == CountOn(host, all, h, k) + 1;
      CountGrows(host, all, all, h, k + 1, j);
    }
  }

  lemma SettleOne(d: Deployment, h: nat, c: nat, slots: pos) returns (run: seq<System>)
    requires 0 < d.shards && c <= slots && c < CountOn(d.limits.host, All(d.shards), h, d.shards)
    ensures Accepted(Resized(ClogQuery(d, h, c), h, slots))
    ensures IsBenignRun(Resized(ClogQuery(d, h, c), h, slots), run) && WaitsOn(d, h, c, run[|run| - 1])
  {
    var q := ClogQuery(d, h, c);
    var j := PlaceOf(d, h, c, d.shards);
    forall k: nat | k < j ensures !Short(Resized(q, h, slots), k) { NotShortBefore(d, h, c, slots, j, k); }
    run := Settle(Resized(q, h, slots), j);
    SameSettled(q, h, slots, run[|run| - 1], j);
  }

  function Request(d: Deployment, h: nat, cs: seq<nat>): seq<Query> {
    seq(|cs|, a requires 0 <= a < |cs| => ClogQuery(d, h, cs[a]))
  }

  /** The counts the queries of a request clog on node `h`: they fill it exactly. */
  ghost predicate Fills(d: Deployment, h: nat, cs: seq<nat>) {
    && 0 < d.shards && Total(cs) == d.limits.slots(h) && |cs| <= d.width
    && forall a :: 0 <= a < |cs| ==> 1 <= cs[a] < CountOn(d.limits.host, All(d.shards), h, d.shards)
  }

  /** The first `m` queries wait and the others have not begun. */
  ghost predicate FilledUpTo(d: Deployment, h: nat, cs: seq<nat>, f: seq<System>, m: nat) {
    && |f| == |cs| && m <= |cs|
    && (forall a: nat :: a < m ==> WaitsOn(d, h, cs[a], f[a]))
    && (forall a: nat :: m <= a < |cs| ==> f[a] == Init(ClogQuery(d, h, cs[a])))
    && (forall g: nat :: Taken(d.limits.host, f, g) == if g == h then Total(cs[..m]) else 0)
    && Total(Busy(f)) <= m
  }

  lemma {:induction false} PrefixTotal(cs: seq<nat>, m: nat)
    requires m < |cs|
    ensures Total(cs[..m]) + cs[m] == Total(cs[..m + 1]) <= Total(cs)
    decreases |cs|
  {
    assert cs[..m + 1][..m] == cs[..m];
    if m + 1 < |cs| {
      var init := cs[..|cs| - 1];
      PrefixTotal(init, m);
      assert init[..m] == cs[..m] && init[..m + 1] == cs[..m + 1];
    } else {
      assert cs[..m + 1] == cs;
    }
  }

  lemma {:induction false} NothingTaken(host: nat -> nat, qs: seq<Query>, f: seq<System>, g: nat)
    requires |f| == |qs| && forall a :: 0 <= a < |f| ==> f[a] == Init(qs[a])
    ensures Taken(host, f, g) == 0
  {
    if f != [] {
      var n := |f| - 1;
      NothingTaken(host, qs[..n], f[..n], g);
      UntouchedHold(host, qs[n], g);
      assert Held(host, f, g)[..n] == Held(host, f[..n], g);
    }
  }

  lemma OneMoreWaits(d: Deployment, h: nat, cs: seq<nat>, f: seq<System>, m: nat, s: System)
    requires Fills(d, h, cs) && m < |cs| && FilledUpTo(d, h, cs, f, m) && WaitsOn(d, h, cs[m], s)
    ensures FilledUpTo(d, h, cs, f[m := s], m + 1)
  {
    var host, t := d.limits.host, f[m := s];
    PrefixTotal(cs, m);
    BusyUpdate(f, m, s);
    forall g: nat ensures Taken(host, t, g) == if g == h then Total(cs[..m + 1]) else 0 {
      UntouchedHold(host, ClogQuery(d, h, cs[m]), g);
      TakenUpdate(host, f, m, s, g);
      WaitingHolds(d, h, cs[m], s, g);
    }
  }

  lemma FillNone(d: Deployment, h: nat, cs: seq<nat>) returns (run: seq<seq<System>>)
    requires Fills(d, h, cs)
    ensures Serves(d, Request(d, h, cs)) && IsFleetRun(d, Request(d, h, cs), run, false)
    ensures FilledUpTo(d, h, cs, run[|run| - 1], 0)
  {
    var qs := Request(d, h, cs);
    run := [Beginning(qs)];
    forall g: nat ensures Taken(d.limits.host, Beginning(qs), g) == 0 {
      NothingTaken(d.limits.host, qs, Beginning(qs), g);
    }
    NoneBusy(Beginning(qs));
  }

  lemma {:induction false} FillFleet(d: Deployment, h: nat, cs: seq<nat>, m: nat) returns (run: seq<seq<System>>)
    requires Fills(d, h, cs) && m <= |cs|
    ensures Serves(d, Request(d, h, cs)) && IsFleetRun(d, Request(d, h, cs), run, false)
    ensures FilledUpTo(d, h, cs, run[|run| - 1], m)
  {
    var qs := Request(d, h, cs);
    if m == 0 {
      run := FillNone(d, h, cs);
    } else {
      var k := m - 1;
      run := FillFleet(d, h, cs, k);
      var f := run[|run| - 1];
      PrefixTotal(cs, k);
      var slots: pos := d.limits.slots(h) - Total(cs[..k]);
      var single := SettleOne(d, h, cs[k], slots);
      run := Embed(d, qs, run, k, h, slots, single, |single| - 1);
      OneMoreWaits(d, h, cs, f, k, single[|single| - 1]);
    }
  }

  /** All slots of the node are held by scans that cannot send, and every query
      waits for one. */
  lemma FilledIsStuck(d: Deployment, h: nat, cs: seq<nat>, f: seq<System>)
    requires Fills(d, h, cs) && FilledUpTo(d, h, cs, f, |cs|)
    ensures Serves(d, Request(d, h, cs)) && FleetAtRest(d, Request(d, h, cs), f)
    ensures AllRunning(f)
  {
    var qs := Request(d, h, cs);
    assert cs[..|cs|] == cs;
    forall a, step | 0 <= a < |qs| && CanMove(d, qs, f, a, step) ensures !Benign(step) {
      WaitingIsStuck(d, h, cs[a], f[a], step);
    }
    forall a: nat | a < |cs| ensures f[a].phase == Running { assert WaitsOn(d, h, cs[a], f[a]); }
  }

  lemma WaitingIsStuck(d: Deployment, h: nat, c: nat, s: System, step: Step)
    requires 0 < d.shards && 1 <= c && WaitsOn(d, h, c, s) && Accepted(ClogQuery(d, h, c))
    requires Shaped(ClogQuery(d, h, c), s) && Enabled(ClogQuery(d, h, c), s, step) && !step.Open?
    ensures !Benign(step)
  {
    var q := ClogQuery(d, h, c);
    SameClogs(q, h, c);
    SameSettled(q, h, c, s, s.streams);
    BlockersChosen(d, h, c, h, s.streams);
    SettledIsStuck(Resized(q, h, c), s, s.streams);
    SameStep(q, h, c, s, step);
  }

  // ---- The exact condition ----

  /** So many slots, filled by at most `m` queries that clog up to `c` shards. */
  lemma {:induction false} Split(slots: pos, c: pos, m: nat) returns (cs: seq<nat>)
    requires slots <= Times(c, m)
    ensures |cs| <= m && Total(cs) == slots && forall a :: 0 <= a < |cs| ==> 1 <= cs[a] <= c
    decreases m
  {
    if slots <= c {
      cs := [slots];
      assert cs[..0] == [];
    } else {
      var rest := Split(slots - c, c, m - 1);
      cs := rest + [c];
      assert cs[..|rest|] == rest;
    }
  }

  ghost predicate AllRunning(f: seq<System>) {
    forall a :: 0 <= a < |f| ==> f[a].phase == Running
  }

  /** On a deployment that is not roomy, a request whose queries block: nothing
      fails, none of them can go on, and none has an answer. */
  lemma SomeRequestBlocks(d: Deployment) returns (qs: seq<Query>, run: seq<seq<System>>)
    requires 0 < d.shards && !Roomy(d)
    ensures Serves(d, qs) && 0 < |qs| <= d.width && IsFleetRun(d, qs, run, false)
    ensures FleetAtRest(d, qs, run[|run| - 1]) && AllRunning(run[|run| - 1])
  {
    var j :| 0 <= j < d.shards && d.limits.slots(d.limits.host(j)) <= Times(Neighbours(d, j), d.width);
    var h, c := d.limits.host(j), Neighbours(d, j);
    if c == 0 { TimesOfNone(d.width); }
    var cs := Split(d.limits.slots(h), c, d.width);
    qs := Request(d, h, cs);
    run := FillFleet(d, h, cs, |cs|);
    FilledIsStuck(d, h, cs, run[|run| - 1]);
  }

  lemma {:induction false} TimesOfNone(m: nat)
    ensures Times(0, m) == 0
  {
    if m > 0 { TimesOfNone(m - 1); }
  }

  /** Every failure-free run of every request ends with all answers. */
  ghost predicate NeverBlocks(d: Deployment) {
    forall qs: seq<Query>, run: seq<seq<System>>, a: nat ::
      Serves(d, qs) && IsFleetRun(d, qs, run, false) && FleetAtRest(d, qs, run[|run| - 1]) && a < |qs| ==>
        Answered(qs[a], run[|run| - 1][a])
  }

  /** A deployment never blocks a request, whatever its queries, if and only if
      every node has more slots than the queries under way times the shards it
      serves less one. */
  lemma NeverBlocksIffRoomy(d: Deployment)
    requires 0 < d.shards
    ensures NeverBlocks(d) <==> Roomy(d)
  {
    if Roomy(d) {
      forall qs: seq<Query>, run: seq<seq<System>>, a: nat |
        Serves(d, qs) && IsFleetRun(d, qs, run, false) && FleetAtRest(d, qs, run[|run| - 1]) && a < |qs|
        ensures Answered(qs[a], run[|run| - 1][a])
      {
        RoomyNeverBlocks(d, qs, run, a);
      }
    } else {
      var qs, run := SomeRequestBlocks(d);
      var f: seq<System> := run[|run| - 1];
      assert f[0].phase == Running && !Answered(qs[0], f[0]);
    }
  }
}
