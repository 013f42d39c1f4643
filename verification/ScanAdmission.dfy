/** Admission and back pressure: a node runs a bounded number of scans, and a
    scan that cannot send its last batch keeps its place. Exactly when can a
    search without a failure fail to finish? */
module ScanAdmission {
  import opened Float32
  import opened TopK
  import opened Ranking
  import opened Collector
  import opened ScanProtocol
  import opened ScanSafety
  import opened ScanRuns
  import opened ScanTheorems
  import opened ScanProgress
  import opened AnswerOrder

  // ---- How much a shard can send before anyone listens ----

  ghost function EligibleSlots(q: Query, i: nat, n: nat): set<nat>
    requires i < |q.shards| && n <= |q.shards[i].rows|
  {
    if n == 0 then {} else EligibleSlots(q, i, n - 1) + (if Eligible(q, i, n - 1) then {n - 1} else {})
  }

  lemma {:induction false} EligibleSlotsAre(q: Query, i: nat, n: nat)
    requires i < |q.shards| && n <= |q.shards[i].rows|
    ensures forall j: nat :: j in EligibleSlots(q, i, n) <==> j < n && Eligible(q, i, j)
  {
    if n > 0 { EligibleSlotsAre(q, i, n - 1); }
  }

  /** The rows of shard `i` the query is owed: while no floor is published, a
      scan of single-row chunks sends a message for each. */
  ghost function Owed(q: Query, i: nat): nat
    requires i < |q.shards|
  {
    |EligibleSlots(q, i, |q.shards[i].rows|)|
  }

  lemma SubsetCount<T>(a: set<T>, b: set<T>)
    requires a <= b
    ensures |a| <= |b|
  {
    if a != b { SubsetSmaller(a, b); }
  }

  lemma OwedSoFar(q: Query, i: nat, n: nat)
    requires i < |q.shards| && n <= |q.shards[i].rows|
    ensures |EligibleSlots(q, i, n)| <= Owed(q, i)
  {
    EligibleSlotsAre(q, i, n);
    EligibleSlotsAre(q, i, |q.shards[i].rows|);
    SubsetCount(EligibleSlots(q, i, n), EligibleSlots(q, i, |q.shards[i].rows|));
  }

  lemma OwedNext(q: Query, i: nat, n: nat)
    requires i < |q.shards| && n < |q.shards[i].rows|
    ensures |EligibleSlots(q, i, n + 1)| == |EligibleSlots(q, i, n)| + (if Eligible(q, i, n) then 1 else 0)
  {
    EligibleSlotsAre(q, i, n);
  }

  lemma {:induction false} NoDuplicatesCount<T>(s: seq<T>)
    requires NoDuplicates(s)
    ensures |Elements(s)| == |s|
  {
    if s != [] {
      var init, last := s[..|s| - 1], s[|s| - 1];
      NoDuplicatesCount(init);
      assert s == init + [last] && Elements(s) == Elements(init) + {last} && last !in init;
    }
  }

  lemma {:induction false} MessagesCarrySlots(queue: seq<Payload>)
    requires forall m :: 0 <= m < |queue| ==> SlotsOf(queue[m]) != []
    ensures |queue| <= |QueueSlots(queue)|
  {
    if queue != [] {
      assert forall m :: 0 <= m < |queue| - 1 ==> queue[1..][m] == queue[m + 1];
      MessagesCarrySlots(queue[1..]);
    }
  }

  /** A scan that has not ended has sent at most what its shard owes. */
  lemma QueueFits(q: Query, i: nat, nd: Node, done: bool, published: Score, seen: set<HeapCandidate>)
    requires i < |q.shards| && NodeInv(q, i, nd, done, published, seen) && !nd.ended
    ensures |nd.queue| <= Owed(q, i)
  {
    var sent := QueueSlots(nd.queue);
    assert forall m :: 0 <= m < |nd.queue| ==> GoodMessage(q.shards[i], nd.queue[m]) && nd.queue[m].Candidates?;
    MessagesCarrySlots(nd.queue);
    EligibleSlotsAre(q, i, nd.pos);
    NoDuplicatesCount(sent);
    SubsetCount(Elements(sent), EligibleSlots(q, i, nd.pos));
    OwedSoFar(q, i, nd.pos);
  }

  // ---- The condition ----

  /** The shard can fill its way out and block, with its slot in hand. */
  ghost predicate Clogs(q: Query, i: nat)
    requires i < |q.shards|
  {
    q.limits.capacity < Owed(q, i)
  }

  /** Which shards can block. */
  ghost function Blockers(q: Query): seq<bool> {
    seq(|q.shards|, i requires 0 <= i < |q.shards| => Clogs(q, i))
  }

  /** Earlier shards that can block may hold every slot of shard `j`'s node. */
  ghost predicate Short(q: Query, j: nat)
    requires j < |q.shards|
  {
    q.limits.slots(q.limits.host(j)) <= CountOn(q.limits.host, Blockers(q), q.limits.host(j), j)
  }

  /** Every stream finds a slot on its node even if all earlier shards there
      that can block do. */
  ghost predicate Admissible(q: Query) {
    forall j :: 0 <= j < |q.shards| ==> !Short(q, j)
  }

  function All(n: nat): (marked: seq<bool>)
    ensures |marked| == n
  {
    seq(n, _ => true)
  }

  /** Fewer marks, and fewer shards, count for less. */
  lemma {:induction false} CountGrows(host: nat -> nat, a: seq<bool>, b: seq<bool>, h: nat, m: nat, n: nat)
    requires m <= |a| && m <= n <= |b| && forall k :: 0 <= k < m && a[k] ==> b[k]
    ensures CountOn(host, a, h, m) <= CountOn(host, b, h, n)
    decreases n
  {
    if m < n { CountGrows(host, a, b, h, m, n - 1); }
    else if n > 0 { CountGrows(host, a, b, h, m - 1, n - 1); }
  }

  /** A slot for every shard a node serves is always enough, whatever the rows
      and the capacity. */
  lemma EnoughSlotsAdmit(q: Query)
    requires forall j :: 0 <= j < |q.shards| ==>
               CountOn(q.limits.host, All(|q.shards|), q.limits.host(j), |q.shards|)
               <= q.limits.slots(q.limits.host(j))
    ensures Admissible(q)
  {
    var all := All(|q.shards|);
    forall j | 0 <= j < |q.shards| ensures !Short(q, j) {
      var h := q.limits.host(j);
      CountGrows(q.limits.host, Blockers(q), all, h, j, j);
      assert CountOn(q.limits.host, all, h, j + 1) == CountOn(q.limits.host, all, h, j) + 1;
      CountGrows(q.limits.host, all, all, h, j + 1, |q.shards|);
    }
  }

  // ---- Enough: some step is always possible ----

  lemma SomeChunkOrder(shard: Shard, lo: nat, floor: Score) returns (order: seq<nat>)
    requires lo < |shard.rows|
    ensures EmitsChunk(shard, lo, lo + 1, floor, order)
    ensures order == if shard.rows[lo].admitted && Le(floor, shard.rows[lo].score) then [lo] else []
  {
    order := if shard.rows[lo].admitted && Le(floor, shard.rows[lo].score) then [lo] else [];
  }

  /** A scan that is not blocked goes on or certifies. */
  lemma UnblockedMoves(q: Query, s: System, i: nat)
    requires Accepted(q) && Shaped(q, s) && i < |s.nodes| && Unblocked(q, s.nodes[i])
    requires s.nodes[i].started && !s.nodes[i].ended && !s.nodes[i].stop && s.nodes[i].pos <= |q.shards[i].rows|
    ensures exists step :: Enabled(q, s, step) && Benign(step) && !step.Take?
  {
    var nd := s.nodes[i];
    if nd.pos == |q.shards[i].rows| {
      assert Enabled(q, s, Certify(i)) && Benign(Certify(i));
    } else {
      var order := SomeChunkOrder(q.shards[i], nd.pos, Polled(nd));
      assert Enabled(q, s, Scan(i, 1, order)) && Benign(Scan(i, 1, order));
    }
  }

  /** More marks here than there: some mark is only here. */
  lemma {:induction false} SomeMarkMore(host: nat -> nat, a: seq<bool>, b: seq<bool>, h: nat, n: nat) returns (i: nat)
    requires n <= |a| && n <= |b| && CountOn(host, b, h, n) < CountOn(host, a, h, n)
    ensures i < n && a[i] && !b[i]
  {
    if a[n - 1] && !b[n - 1] { i := n - 1; } else { i := SomeMarkMore(host, a, b, h, n - 1); }
  }

  lemma HolderMoves(q: Query, s: System, i: nat)
    requires Accepted(q) && Inv(q, s) && s.phase == Running && i < |q.shards|
    requires s.nodes[i].started && !s.nodes[i].ended && !Clogs(q, i)
    ensures exists step :: Enabled(q, s, step) && Benign(step)
  {
    assert NodeInv(q, i, s.nodes[i], s.collector.completed[i], s.collector.published, s.seen);
    QueueFits(q, i, s.nodes[i], s.collector.completed[i], s.collector.published, s.seen);
    UnblockedMoves(q, s, i);
  }

  lemma OpenedMoves(q: Query, s: System)
    requires Accepted(q) && Inv(q, s) && s.phase == Running && s.streams == |s.nodes|
    ensures exists step :: Enabled(q, s, step) && Benign(step)
  {
    UncertifiedAll(s.collector.completed);
    var i :| 0 <= i < |s.nodes| && !s.collector.completed[i];
    assert NodeInv(q, i, s.nodes[i], s.collector.completed[i], s.collector.published, s.seen);
    if s.nodes[i].queue != [] {
      assert Enabled(q, s, Take(i)) && Benign(Take(i));
    } else {
      UnblockedMoves(q, s, i);
    }
  }

  /** On an admissible deployment a running search can always take a step that
      is not a failure. */
  lemma NeverStuck(q: Query, s: System)
    requires Accepted(q) && Admissible(q) && Inv(q, s) && s.phase == Running
    ensures exists step :: Enabled(q, s, step) && Benign(step)
  {
    if s.streams == |s.nodes| {
      OpenedMoves(q, s);
    } else if SlotFree(q, s.nodes, s.streams) {
      assert Enabled(q, s, Open) && Benign(Open);
    } else {
      assert !Short(q, s.streams);
      var i := SomeMarkMore(q.limits.host, Holding(s.nodes), Blockers(q), q.limits.host(s.streams), s.streams);
      HolderMoves(q, s, i);
    }
  }

  /** No step is possible but a failure. */
  ghost predicate AtRest(q: Query, s: System)
    requires Accepted(q)
  {
    Shaped(q, s) && forall step :: Enabled(q, s, step) ==> !Benign(step)
  }

  /** The search has returned the reference answer, tie-complete or not. */
  ghost predicate Answered(q: Query, s: System)
    requires Accepted(q)
  {
    s.phase.Returned? && IsAnswer(q, s.phase.answer)
  }

  /** On an admissible deployment a failure-free run that cannot be prolonged
      has returned the reference answer, with every shard certified; since runs are
      bounded, every failure-free run can be prolonged to one. */
  lemma FailureFreeRunsReturn(q: Query, run: seq<System>)
    requires Accepted(q) && Admissible(q) && IsBenignRun(q, run) && AtRest(q, run[|run| - 1])
    ensures Answered(q, run[|run| - 1]) && Uncertified(run[|run| - 1].collector.completed) == 0
  {
    BenignRunKeeps(q, run, |run| - 1);
    if run[|run| - 1].phase == Running { NeverStuck(q, run[|run| - 1]); }
    BenignRunsAreRuns(q, run);
    RunsGiveAnswers(q, run);
  }

  // ---- Not enough: a run that blocks ----

  function Untouched(q: Query): Node {
    var floor := q.options.StartFloor();
    Node(false, Start, true, [], floor, floor, false, 0, false, [])
  }

  /** The shard has done all it can alone: certified, or blocked. */
  ghost predicate Settled(q: Query, i: nat, nd: Node)
    requires i < |q.shards|
  {
    && nd.started && !nd.unread && nd.flight == []
    && (nd.ended <==> !Clogs(q, i)) && (Clogs(q, i) ==> !Unblocked(q, nd))
  }

  /** The first `i` shards are settled and the rest untouched. */
  ghost predicate SettledUpTo(q: Query, s: System, i: nat, streams: nat) {
    && Shaped(q, s) && s.phase == Running && s.streams == streams && i <= streams <= |q.shards|
    && (forall k :: 0 <= k < i ==> Settled(q, k, s.nodes[k]))
    && (forall k :: streams <= k < |s.nodes| ==> s.nodes[k] == Untouched(q))
  }

  /** Shard `i` is under way, and no floor has reached it. */
  ghost predicate Filling(q: Query, s: System, i: nat) {
    && i < |q.shards| && SettledUpTo(q, s, i, i + 1)
    && var nd := s.nodes[i]; var floor := q.options.StartFloor();
       && nd.started && !nd.unread && nd.flight == [] && !nd.stop && !nd.ended
       && nd.floorNow == floor && nd.floorCell == floor
       && nd.pos <= |q.shards[i].rows| && |nd.queue| == |EligibleSlots(q, i, nd.pos)|
  }

  lemma {:induction false} SameMarks(host: nat -> nat, a: seq<bool>, b: seq<bool>, h: nat, n: nat)
    requires n <= |a| && n <= |b| && a[..n] == b[..n]
    ensures CountOn(host, a, h, n) == CountOn(host, b, h, n)
  {
    if n > 0 {
      assert a[..n][..n - 1] == a[..n - 1] && b[..n][..n - 1] == b[..n - 1];
      assert a[..n][n - 1] == b[..n][n - 1];
      SameMarks(host, a, b, h, n - 1);
    }
  }

  lemma SettledHold(q: Query, s: System, j: nat)
    requires j < |q.shards| && SettledUpTo(q, s, j, j)
    ensures SlotFree(q, s.nodes, j) <==> !Short(q, j)
  {
    forall k | 0 <= k < j ensures Holding(s.nodes)[k] == Blockers(q)[k] {
      assert Settled(q, k, s.nodes[k]);
    }
    SameMarks(q.limits.host, Holding(s.nodes), Blockers(q), q.limits.host(j), j);
  }

  lemma ScanFills(q: Query, s: System, i: nat, order: seq<nat>)
    requires Accepted(q) && Filling(q, s, i) && s.nodes[i].pos < |q.shards[i].rows| && Unblocked(q, s.nodes[i])
    requires EmitsChunk(q.shards[i], s.nodes[i].pos, s.nodes[i].pos + 1, q.options.StartFloor(), order)
    requires order == if Eligible(q, i, s.nodes[i].pos) then [s.nodes[i].pos] else []
    ensures Enabled(q, s, Scan(i, 1, order)) && Filling(q, Apply(q, s, Scan(i, 1, order)), i)
    ensures Apply(q, s, Scan(i, 1, order)).nodes[i].pos == s.nodes[i].pos + 1
  {
    OwedNext(q, i, s.nodes[i].pos);
  }

  lemma SettleNode(q: Query, s: System, i: nat, t: System)
    requires i < |q.shards| && SettledUpTo(q, s, i, i + 1) && Shaped(q, t)
    requires t.phase == Running && t.streams == i + 1 && t.nodes == s.nodes[i := t.nodes[i]]
    requires Settled(q, i, t.nodes[i])
    ensures SettledUpTo(q, t, i + 1, i + 1)
  {
    forall k | 0 <= k < i + 1 ensures Settled(q, k, t.nodes[k]) {
      if k < i { assert Settled(q, k, s.nodes[k]); }
    }
  }

  lemma BlockedSettles(q: Query, s: System, i: nat)
    requires Filling(q, s, i) && !Unblocked(q, s.nodes[i])
    ensures SettledUpTo(q, s, i + 1, i + 1)
  {
    OwedSoFar(q, i, s.nodes[i].pos);
    SettleNode(q, s, i, s);
  }

  lemma CertifySettles(q: Query, s: System, i: nat)
    requires Accepted(q) && Filling(q, s, i) && Unblocked(q, s.nodes[i]) && s.nodes[i].pos == |q.shards[i].rows|
    ensures Enabled(q, s, Certify(i)) && SettledUpTo(q, Apply(q, s, Certify(i)), i + 1, i + 1)
  {
    SettleNode(q, s, i, Apply(q, s, Certify(i)));
  }

  /** Let shard `i` run alone for as long as it can. */
  lemma {:induction false} Fill(q: Query, run: seq<System>, i: nat) returns (next: seq<System>)
    requires Accepted(q) && IsBenignRun(q, run) && Filling(q, run[|run| - 1], i)
    ensures IsBenignRun(q, next) && SettledUpTo(q, next[|next| - 1], i + 1, i + 1)
    decreases |q.shards[i].rows| - run[|run| - 1].nodes[i].pos
  {
    var s := run[|run| - 1];
    var nd := s.nodes[i];
    if !Unblocked(q, nd) {
      BlockedSettles(q, s, i);
      next := run;
    } else if nd.pos == |q.shards[i].rows| {
      CertifySettles(q, s, i);
      next := BenignExtend(q, run, Certify(i));
    } else {
      var order := SomeChunkOrder(q.shards[i], nd.pos, Polled(nd));
      ScanFills(q, s, i, order);
      next := BenignExtend(q, run, Scan(i, 1, order));
      next := Fill(q, next, i);
    }
  }

  lemma OpenFills(q: Query, s: System, i: nat)
    requires Accepted(q) && i < |q.shards| && SettledUpTo(q, s, i, i) && !Short(q, i)
    ensures Enabled(q, s, Open) && Filling(q, Apply(q, s, Open), i)
  {
    SettledHold(q, s, i);
  }

  /** Open and settle the shards before `j`, one after the other. */
  lemma {:induction false} Settle(q: Query, j: nat) returns (run: seq<System>)
    requires Accepted(q) && j <= |q.shards| && forall k :: 0 <= k < j ==> !Short(q, k)
    ensures IsBenignRun(q, run) && SettledUpTo(q, run[|run| - 1], j, j)
  {
    if j == 0 {
      run := [Init(q)];
    } else {
      run := Settle(q, j - 1);
      OpenFills(q, run[|run| - 1], j - 1);
      run := BenignExtend(q, run, Open);
      run := Fill(q, run, j - 1);
    }
  }

  /** All slots of the next node are held by blocked scans. */
  lemma SettledIsStuck(q: Query, s: System, j: nat)
    requires Accepted(q) && j < |q.shards| && SettledUpTo(q, s, j, j) && Short(q, j)
    ensures s.phase == Running && AtRest(q, s)
  {
    SettledHold(q, s, j);
    forall i | 0 <= i < |s.nodes| ensures NoneLeft(q, s, i) {
      if i < j { assert Settled(q, i, s.nodes[i]); }
    }
  }

  /** Node `i` has nothing to do. */
  ghost predicate NoneLeft(q: Query, s: System, i: nat)
    requires i < |s.nodes|
  {
    var nd := s.nodes[i];
    !nd.started || (!nd.unread && nd.flight == [] && (nd.ended || !Unblocked(q, nd)))
  }

  lemma {:induction false} FirstMark(marked: seq<bool>, k: nat) returns (j: nat)
    requires k < |marked| && marked[k]
    ensures j <= k && marked[j] && forall i :: 0 <= i < j ==> !marked[i]
  {
    if exists i :: 0 <= i < k && marked[i] {
      var i :| 0 <= i < k && marked[i];
      j := FirstMark(marked, i);
    } else {
      j := k;
    }
  }

  ghost function Shortages(q: Query): seq<bool> {
    seq(|q.shards|, j requires 0 <= j < |q.shards| => Short(q, j))
  }

  lemma FirstShortage(q: Query) returns (j: nat)
    requires !Admissible(q)
    ensures j < |q.shards| && Short(q, j) && forall i :: 0 <= i < j ==> !Short(q, i)
  {
    var marked := Shortages(q);
    var k :| 0 <= k < |q.shards| && Short(q, k);
    j := FirstMark(marked, k);
    assert forall i :: 0 <= i < j ==> marked[i] == Short(q, i);
  }

  /** A run in which nothing fails and which never returns: a blocked scan
      keeps the slot the next stream waits for, and the coordinator drains
      nothing until that stream opens. */
  lemma SomeRunBlocks(q: Query) returns (run: seq<System>)
    requires Accepted(q) && !Admissible(q)
    ensures IsBenignRun(q, run) && run[|run| - 1].phase == Running && AtRest(q, run[|run| - 1])
  {
    var j := FirstShortage(q);
    run := Settle(q, j);
    SettledIsStuck(q, run[|run| - 1], j);
  }

  /** The smallest case: one slot, two shards, and a first shard with more to
      say than fits on the way. */
  lemma OneSlotForTwo(q: Query)
    requires 2 <= |q.shards| && q.limits.host(0) == q.limits.host(1) && q.limits.slots(q.limits.host(1)) == 1
    ensures Clogs(q, 0) ==> !Admissible(q)
  {
    var marked, h := Blockers(q), q.limits.host(1);
    assert CountOn(q.limits.host, marked, h, 0) == 0;
    assert CountOn(q.limits.host, marked, h, 1) == if Clogs(q, 0) then 1 else 0;
    if Clogs(q, 0) { assert Short(q, 1); }
  }

  /** Every failure-free run ends with the reference answer if and only if the
      deployment is admissible for the query. */
  lemma FinishesIffAdmissible(q: Query)
    requires Accepted(q)
    ensures Admissible(q) <==>
              forall run: seq<System> ::
                IsBenignRun(q, run) && AtRest(q, run[|run| - 1]) ==> Answered(q, run[|run| - 1])
  {
    if Admissible(q) {
      forall run: seq<System> | IsBenignRun(q, run) && AtRest(q, run[|run| - 1])
        ensures Answered(q, run[|run| - 1])
      {
        FailureFreeRunsReturn(q, run);
      }
    } else {
      var run := SomeRunBlocks(q);
      assert IsBenignRun(q, run);
    }
  }
}
