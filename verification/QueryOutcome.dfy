/** Which event sequences a query survives, said without the loop: every event
    up to some point is in order, and by then every shard has certified. */
module QueryOutcome {
  import opened Float32
  import opened Ranking
  import opened Collector
  import opened ScanSafety
  import opened ScanRuns

  /** Among the first `n` events shard `i` certified, or it had before. */
  ghost predicate Done(before: seq<bool>, events: seq<Event>, n: nat, i: nat)
    requires n <= |events|
  {
    i < |before| && (before[i] || exists m :: 0 <= m < n && events[m] == Message(i, Summary(true)))
  }

  /** Scores, slots and labels of one length, labels left out only where none are
      needed, and no score a NaN. */
  ghost predicate Usable(o: Options, b: Batch) {
    && |b.slots| == |b.scores|
    && (|b.labels| == |b.scores| || (b.labels == [] && !o.stableLabelOrder))
    && forall j :: 0 <= j < |b.scores| ==> !IsNan(b.scores[j])
  }

  /** Event `m` is in order after those before it. */
  ghost predicate InOrder(o: Options, before: seq<bool>, events: seq<Event>, m: nat)
    requires m < |events|
  {
    match events[m]
    case Message(i, Candidates(b)) => !Done(before, events, m, i) && Usable(o, b)
    case Message(i, Summary(done)) => !Done(before, events, m, i) && done
    case Message(_, EmptyPayload) => false
    case Error(_) => false
    case Closed(i) => Done(before, events, m, i)
  }

  ghost predicate AllInOrder(o: Options, before: seq<bool>, events: seq<Event>, n: nat)
    requires n <= |events|
  {
    forall m :: 0 <= m < n ==> InOrder(o, before, events, m)
  }

  ghost predicate AllDone(before: seq<bool>, events: seq<Event>, n: nat)
    requires n <= |events|
  {
    forall i :: 0 <= i < |before| ==> Done(before, events, n, i)
  }

  lemma DoneShifts(before: seq<bool>, events: seq<Event>, n: nat, i: nat)
    requires n < |events|
    ensures Done(Certifies(before, events[0]), events[1..], n, i) <==> Done(before, events, n + 1, i)
  {
    var rest, now := events[1..], Certifies(before, events[0]);
    assert forall m :: 0 <= m < n ==> rest[m] == events[m + 1];
    if Done(before, events, n + 1, i) && !before[i] {
      var m :| 0 <= m < n + 1 && events[m] == Message(i, Summary(true));
      if m > 0 { assert rest[m - 1] == Message(i, Summary(true)); }
    }
    if i < |now| && !now[i] && Done(now, rest, n, i) {
      var m :| 0 <= m < n && rest[m] == Message(i, Summary(true));
      assert events[m + 1] == Message(i, Summary(true));
    }
  }

  lemma OrderShifts(o: Options, before: seq<bool>, events: seq<Event>, m: nat)
    requires m + 1 < |events|
    ensures InOrder(o, Certifies(before, events[0]), events[1..], m) <==> InOrder(o, before, events, m + 1)
  {
    DoneShifts(before, events, m, events[m + 1].shard);
  }

  lemma AllShift(o: Options, before: seq<bool>, events: seq<Event>, n: nat)
    requires n < |events| && InOrder(o, before, events, 0)
    ensures AllInOrder(o, Certifies(before, events[0]), events[1..], n) <==> AllInOrder(o, before, events, n + 1)
    ensures AllDone(Certifies(before, events[0]), events[1..], n) <==> AllDone(before, events, n + 1)
  {
    forall m: nat | m < n
      ensures InOrder(o, Certifies(before, events[0]), events[1..], m) <==> InOrder(o, before, events, m + 1)
    {
      OrderShifts(o, before, events, m);
    }
    forall i: nat | i < |before|
      ensures Done(Certifies(before, events[0]), events[1..], n, i) <==> Done(before, events, n + 1, i)
    {
      DoneShifts(before, events, n, i);
    }
    if AllInOrder(o, Certifies(before, events[0]), events[1..], n) {
      forall m | 0 <= m < n + 1 ensures InOrder(o, before, events, m) {
        if m > 0 { assert InOrder(o, Certifies(before, events[0]), events[1..], m - 1); }
      }
    }
    if AllInOrder(o, before, events, n + 1) {
      forall m | 0 <= m < n ensures InOrder(o, Certifies(before, events[0]), events[1..], m) {
        assert InOrder(o, before, events, m + 1);
      }
    }
    if AllDone(Certifies(before, events[0]), events[1..], n) {
      var m := n + 1;
      forall i | 0 <= i < |before| ensures Done(before, events, m, i) {
        assert Done(Certifies(before, events[0]), events[1..], n, i);
      }
    }
    if AllDone(before, events, n + 1) {
      forall i | 0 <= i < |before| ensures Done(Certifies(before, events[0]), events[1..], n, i) {
        assert Done(before, events, n + 1, i);
      }
    }
  }

  /** What one event does is decided by whether it is in order. */
  lemma HandledInOrder(o: Options, s: State, events: seq<Event>)
    requires 1 <= o.k && events != [] && events[0].shard < |s.completed| && 0 < s.remaining
    ensures Handle(o, s, events[0]).Continue? <==> InOrder(o, s.completed, events, 0)
    ensures Handle(o, s, events[0]).Continue? ==>
              Handle(o, s, events[0]).state.completed == Certifies(s.completed, events[0])
  {
    var e := events[0];
    if e.Message? && e.payload.Candidates? {
      var b := e.payload.batch;
      assert Usable(o, b) <==> Rankable(o, b) && NanFree(b, |b.scores|);
    }
  }

  ghost predicate Serves(o: Options, before: seq<bool>, events: seq<Event>, n: nat) {
    n <= |events| && AllInOrder(o, before, events, n) && AllDone(before, events, n)
  }

  lemma HandleCounts(o: Options, s: State, e: Event)
    requires 1 <= o.k && e.shard < |s.completed| && 0 < s.remaining == Uncertified(s.completed)
    requires Handle(o, s, e).Continue?
    ensures var t := Handle(o, s, e).state; t.remaining == Uncertified(t.completed) && |t.completed| == |s.completed|
  {
    if e.Message? && e.payload.Summary? { UncertifiedDrops(s.completed, e.shard); }
  }

  lemma {:induction false} RunServes(o: Options, s: State, cells: seq<Control>, events: seq<Event>)
    requires 1 <= o.k && |cells| == |s.completed| && s.remaining == Uncertified(s.completed)
    requires forall e :: e in events ==> e.shard < |s.completed|
    ensures Run(o, s, cells, events).0.Ok? <==> exists n :: 0 <= n <= |events| && Serves(o, s.completed, events, n)
    ensures Run(o, s, cells, events).0 == Err(AllStreamsClosed) <==>
              AllInOrder(o, s.completed, events, |events|) && !AllDone(s.completed, events, |events|)
    decreases |events|
  {
    UncertifiedAll(s.completed);
    if s.remaining == 0 {
      assert Serves(o, s.completed, events, 0);
    } else if events == [] {
      NotAtOnce(o, s, events);
    } else {
      NotAtOnce(o, s, events);
      HandledInOrder(o, s, events);
      if InOrder(o, s.completed, events, 0) {
        RunServesRest(o, s, cells, events);
      } else {
        assert forall n :: 0 < n <= |events| ==> !AllInOrder(o, s.completed, events, n);
      }
    }
  }

  lemma NotAtOnce(o: Options, s: State, events: seq<Event>)
    requires 0 < s.remaining == Uncertified(s.completed)
    ensures !AllDone(s.completed, events, 0)
  {
    UncertifiedAll(s.completed);
    var i :| 0 <= i < |s.completed| && !s.completed[i];
    assert !Done(s.completed, events, 0, i);
  }

  lemma {:induction false} RunServesRest(o: Options, s: State, cells: seq<Control>, events: seq<Event>)
    requires 1 <= o.k && |cells| == |s.completed| && 0 < s.remaining == Uncertified(s.completed)
    requires events != [] && forall e :: e in events ==> e.shard < |s.completed|
    requires InOrder(o, s.completed, events, 0)
    ensures Run(o, s, cells, events).0.Ok? <==> exists n :: 0 <= n <= |events| && Serves(o, s.completed, events, n)
    ensures Run(o, s, cells, events).0 == Err(AllStreamsClosed) <==>
              AllInOrder(o, s.completed, events, |events|) && !AllDone(s.completed, events, |events|)
    decreases |events|, 0
  {
    var rest, next := events[1..], Handle(o, s, events[0]);
    HandledInOrder(o, s, events);
    HandleCounts(o, s, events[0]);
    NotAtOnce(o, s, events);
    var shown := if next.raised then Broadcast(cells, s.completed, FloorUpdate(next.state.published)) else cells;
    RunServes(o, next.state, shown, rest);
    forall n: nat | n < |events|
      ensures Serves(o, next.state.completed, rest, n) <==> Serves(o, s.completed, events, n + 1)
    {
      AllShift(o, s.completed, events, n);
    }
    AllShift(o, s.completed, events, |rest|);
    if n :| 0 <= n <= |events| && Serves(o, s.completed, events, n) {
      assert Serves(o, next.state.completed, rest, n - 1);
    }
    if n :| 0 <= n <= |rest| && Serves(o, next.state.completed, rest, n) {
      assert Serves(o, s.completed, events, n + 1);
    }
  }

  /** A query succeeds exactly when some stretch of its events from the start is
      in order and certifies every shard. It gives up because all streams closed
      exactly when every event was in order and some shard never certified. */
  lemma QuerySucceedsIff(o: Options, shards: nat, cells: seq<Control>, events: seq<Event>)
    requires 1 <= o.k && |cells| == shards && forall e :: e in events ==> e.shard < shards
    ensures var none := seq(shards, _ => false); var r := Run(o, InitialState(o, shards), cells, events).0;
            && (r.Ok? <==> exists n :: 0 <= n <= |events| && Serves(o, none, events, n))
            && (r == Err(AllStreamsClosed) <==>
                  AllInOrder(o, none, events, |events|) && !AllDone(none, events, |events|))
  {
    UncertifiedAll(seq(shards, _ => false));
    RunServes(o, InitialState(o, shards), cells, events);
  }

  /** Why an event that is not in order ends the query. */
  lemma FailureNamesEvent(o: Options, s: State, e: Event)
    requires 1 <= o.k && e.shard < |s.completed| && 0 < s.remaining && Handle(o, s, e).Fail?
    ensures var f := Handle(o, s, e).failure;
            && (e.Error? ==> f == ShardError) && (e.Closed? ==> f == ClosedEarly)
            && (e.Message? && e.payload.EmptyPayload? ==> f == EmptyResponse)
            && (e.Message? && e.payload.Summary? ==>
                  f == if s.completed[e.shard] then SecondSummary else IncompleteScan)
            && (e.Message? && e.payload.Candidates? ==>
                  var b := e.payload.batch;
                  f == if s.completed[e.shard] then BatchAfterSummary
                       else if |b.slots| != |b.scores| || (|b.labels| != |b.scores| && b.labels != [])
                       then MisalignedBatch
                       else if |b.labels| != |b.scores| && o.stableLabelOrder then UnlabelledBatch
                       else NanScore)
  {
  }

  // ---- What waits for the boundary ----

  lemma {:induction false} PrunedAreAbove(ties: seq<HeapCandidate>, floor: Score)
    ensures forall c :: c in Prune(ties, floor) ==> c in ties && Le(floor, c.score)
  {
    if ties != [] { PrunedAreAbove(ties[1..], floor); }
  }

  /** Each raise of the floor throws out the tie candidates that fell behind it,
      and only a tie-complete query keeps any. */
  lemma RaisePrunesTies(o: Options, s: State, e: Event)
    requires 1 <= o.k && e.shard < |s.completed| && 0 < s.remaining && Handle(o, s, e).Continue?
    ensures var out := Handle(o, s, e);
            && (!o.tieComplete ==> out.state.ties == s.ties)
            && (out.raised && o.tieComplete ==> forall c :: c in out.state.ties ==> Le(out.state.published, c.score))
            && (out.raised ==> Lt(s.published, out.state.published) && |out.state.heap| == o.k
                               && out.state.published == out.state.heap[o.k - 1].score)
            && (!out.raised ==> out.state.published == s.published)
  {
    if e.Message? && e.payload.Candidates? {
      var b := e.payload.batch;
      var heap := OfferAll(s.heap, o, e.shard, b, |b.scores|);
      if o.tieComplete && |heap| == o.k {
        PrunedAreAbove(s.ties + ToCandidates(o, e.shard, b, |b.scores|), heap[o.k - 1].score);
      }
    }
  }
}
