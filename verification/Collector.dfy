/** The coordinator's side of one query: the loop of `stream_query`, once as a
    function of the events it receives and once as the loop that runs it. */
module Collector {
  import opened Float32
  import opened TopK
  import opened Ranking

  datatype Options = Options(k: nat, stableLabelOrder: bool, initialFloor: Option<Score>, tieComplete: bool)
  {
    /** The inclusive floor a search starts from. */
    function StartFloor(): (floor: Score)
      ensures forall s: Score :: Le(floor, s) <==> initialFloor.None? || Le(initialFloor.value, s)
    {
      NegInfinityIsBelowAll();
      if initialFloor.None? then NEG_INFINITY else initialFloor.value
    }
  }

  datatype Batch = Batch(scores: seq<Bits>, slots: seq<nat>, labels: seq<nat>)

  datatype Payload = Candidates(batch: Batch) | Summary(completed: bool) | EmptyPayload

  datatype Event = Message(shard: nat, payload: Payload) | Error(shard: nat) | Closed(shard: nat)

  datatype Failure =
    | BatchAfterSummary | MisalignedBatch | UnlabelledBatch | NanScore
    | SecondSummary | IncompleteScan | EmptyResponse | ShardError | ClosedEarly | AllStreamsClosed

  /** What a shard's one-cell control channel holds. */
  datatype Control = Start | FloorUpdate(floor: Score) | Stop

  datatype State = State(
    heap: seq<HeapCandidate>, ties: seq<HeapCandidate>, published: Score,
    completed: seq<bool>, remaining: nat)

  datatype Outcome = Continue(state: State, raised: bool) | Fail(failure: Failure)

  datatype Result = Ok(candidates: seq<HeapCandidate>) | Err(failure: Failure)

  predicate Aligned(b: Batch) {
    |b.scores| == |b.slots| && (b.labels == [] || |b.labels| == |b.scores|)
  }

  predicate Rankable(o: Options, b: Batch) {
    Aligned(b) && (o.stableLabelOrder && b.scores != [] ==> b.labels != [])
  }

  predicate NanFree(b: Batch, n: nat)
    requires n <= |b.scores|
  {
    forall j :: 0 <= j < n ==> !IsNan(b.scores[j])
  }

  function ToCandidate(o: Options, shard: nat, b: Batch, j: nat): HeapCandidate
    requires Rankable(o, b) && j < |b.scores| && !IsNan(b.scores[j])
  {
    HeapCandidate(b.scores[j], shard, b.slots[j],
                  if b.labels != [] then Some(b.labels[j]) else None,
                  if o.stableLabelOrder then Some(b.labels[j]) else None)
  }

  /** The first `n` entries of a batch as candidates. */
  function ToCandidates(o: Options, shard: nat, b: Batch, n: nat): seq<HeapCandidate>
    requires n <= |b.scores| && Rankable(o, b) && NanFree(b, n)
  {
    if n == 0 then [] else ToCandidates(o, shard, b, n - 1) + [ToCandidate(o, shard, b, n - 1)]
  }

  function OfferAll(heap: seq<HeapCandidate>, o: Options, shard: nat, b: Batch, n: nat): seq<HeapCandidate>
    requires 1 <= o.k && n <= |b.scores| && Rankable(o, b) && NanFree(b, n)
  {
    if n == 0 then heap
    else Offer(Before, OfferAll(heap, o, shard, b, n - 1), ToCandidate(o, shard, b, n - 1), o.k)
  }

  /** `tie_candidates.retain(|candidate| candidate.score >= floor)`. */
  function Prune(ties: seq<HeapCandidate>, floor: Score): seq<HeapCandidate> {
    if ties == [] then []
    else if Le(floor, ties[0].score) then [ties[0]] + Prune(ties[1..], floor)
    else Prune(ties[1..], floor)
  }

  /** Once the heap is full, its root's score becomes the floor if that is a rise. */
  function PublishRoot(o: Options, s: State, heap: seq<HeapCandidate>, ties: seq<HeapCandidate>): Outcome
    requires 1 <= o.k
  {
    if |heap| == o.k && Lt(s.published, heap[o.k - 1].score) then
      var floor := heap[o.k - 1].score;
      Continue(State(heap, if o.tieComplete then Prune(ties, floor) else ties, floor, s.completed, s.remaining), true)
    else
      Continue(State(heap, ties, s.published, s.completed, s.remaining), false)
  }

  function TakeBatch(o: Options, s: State, shard: nat, b: Batch): Outcome
    requires 1 <= o.k && shard < |s.completed|
  {
    if s.completed[shard] then Fail(BatchAfterSummary)
    else if !Aligned(b) then Fail(MisalignedBatch)
    else if o.stableLabelOrder && b.labels == [] && b.scores != [] then Fail(UnlabelledBatch)
    else if !NanFree(b, |b.scores|) then Fail(NanScore)
    else
      var heap := OfferAll(s.heap, o, shard, b, |b.scores|);
      var ties := if o.tieComplete then s.ties + ToCandidates(o, shard, b, |b.scores|) else s.ties;
      PublishRoot(o, s, heap, ties)
  }

  function TakeSummary(s: State, shard: nat, done: bool): Outcome
    requires shard < |s.completed| && 0 < s.remaining
  {
    if s.completed[shard] then Fail(SecondSummary)
    else if !done then Fail(IncompleteScan)
    else Continue(s.(completed := s.completed[shard := true], remaining := s.remaining - 1), false)
  }

  function Handle(o: Options, s: State, e: Event): Outcome
    requires 1 <= o.k && e.shard < |s.completed| && 0 < s.remaining
  {
    match e
    case Message(shard, Candidates(b)) => TakeBatch(o, s, shard, b)
    case Message(shard, Summary(done)) => TakeSummary(s, shard, done)
    case Message(_, EmptyPayload) => Fail(EmptyResponse)
    case Error(_) => Fail(ShardError)
    case Closed(shard) => if s.completed[shard] then Continue(s, false) else Fail(ClosedEarly)
  }

  function Finish(o: Options, s: State): seq<HeapCandidate> {
    Sort(Before,
      if !o.tieComplete then s.heap
      else if s.heap == [] then s.ties
      else Prune(s.ties, s.heap[|s.heap| - 1].score))
  }

  function InitialState(o: Options, shards: nat): State {
    State([], [], o.StartFloor(), seq(shards, _ => false), shards)
  }

  /** `send_replace` on every shard that has not certified. */
  function Broadcast(cells: seq<Control>, completed: seq<bool>, c: Control): seq<Control>
    requires |cells| == |completed|
  {
    seq(|cells|, i requires 0 <= i < |cells| => if completed[i] then cells[i] else c)
  }

  function Run(o: Options, s: State, cells: seq<Control>, events: seq<Event>): (Result, seq<Control>)
    requires 1 <= o.k && |cells| == |s.completed|
    requires forall e :: e in events ==> e.shard < |s.completed|
    decreases |events|
  {
    if s.remaining == 0 then (Ok(Finish(o, s)), cells)
    else if events == [] then (Err(AllStreamsClosed), Broadcast(cells, s.completed, Stop))
    else
      match Handle(o, s, events[0])
      case Fail(f) => (Err(f), Broadcast(cells, s.completed, Stop))
      case Continue(next, raised) =>
        var shown := if raised then Broadcast(cells, s.completed, FloorUpdate(next.published)) else cells;
        Run(o, next, shown, events[1..])
  }

  /** The loop, started in `s` and fed `events`, is still running in `t`. */
  ghost predicate Reaches(o: Options, s: State, events: seq<Event>, t: State)
    requires 1 <= o.k
    decreases |events|
  {
    if events == [] then s == t
    else
      && 0 < s.remaining && events[0].shard < |s.completed|
      && Handle(o, s, events[0]).Continue?
      && Reaches(o, Handle(o, s, events[0]).state, events[1..], t)
  }

  lemma {:induction false} ReachesExtends(o: Options, s: State, events: seq<Event>, t: State, e: Event)
    requires 1 <= o.k && Reaches(o, s, events, t)
    requires 0 < t.remaining && e.shard < |t.completed| && Handle(o, t, e).Continue?
    ensures Reaches(o, s, events + [e], Handle(o, t, e).state)
    decreases |events|
  {
    if events == [] {
      assert (events + [e])[1..] == [];
    } else {
      assert (events + [e])[1..] == events[1..] + [e];
      ReachesExtends(o, Handle(o, s, events[0]).state, events[1..], t, e);
    }
  }

  lemma {:induction false} RunFollowsReaches(o: Options, s: State, cells: seq<Control>, events: seq<Event>, t: State)
    requires 1 <= o.k && |cells| == |s.completed|
    requires Reaches(o, s, events, t) && t.remaining == 0
    requires forall e :: e in events ==> e.shard < |s.completed|
    ensures Run(o, s, cells, events).0 == Ok(Finish(o, t))
    decreases |events|
  {
    if events != [] {
      var next := Handle(o, s, events[0]);
      var shown := if next.raised then Broadcast(cells, s.completed, FloorUpdate(next.state.published)) else cells;
      RunFollowsReaches(o, next.state, shown, events[1..], t);
    }
  }

  // ---- Streams that close after their summary ----

  function Certifies(completed: seq<bool>, e: Event): seq<bool> {
    if e.Message? && e.payload == Summary(true) && e.shard < |completed| then completed[e.shard := true] else completed
  }

  /** `padded` is `events` with the closing of streams already certified put in
      anywhere. */
  ghost predicate Padding(completed: seq<bool>, padded: seq<Event>, events: seq<Event>)
    decreases |padded|
  {
    if padded == [] then events == []
    else
      var e := padded[0];
      || (e.Closed? && e.shard < |completed| && completed[e.shard] && Padding(completed, padded[1..], events))
      || (events != [] && e == events[0] && Padding(Certifies(completed, e), padded[1..], events[1..]))
  }

  lemma HandleCertifies(o: Options, s: State, e: Event)
    requires 1 <= o.k && e.shard < |s.completed| && 0 < s.remaining && Handle(o, s, e).Continue?
    ensures Handle(o, s, e).state.completed == Certifies(s.completed, e)
  {
    assert e.Closed? ==> Handle(o, s, e).state == s;
  }

  lemma {:induction false} NoPadding(completed: seq<bool>, events: seq<Event>)
    ensures Padding(completed, events, events)
    decreases |events|
  {
    if events != [] { NoPadding(Certifies(completed, events[0]), events[1..]); }
  }

  /** Wherever a shard has certified by, its stream may close. */
  lemma {:induction false} ClosingPads(completed: seq<bool>, before: seq<Event>, after: seq<Event>, shard: nat)
    requires shard < |completed| && (completed[shard] || Message(shard, Summary(true)) in before)
    ensures Padding(completed, before + [Closed(shard)] + after, before + after)
    decreases |before|
  {
    var padded, events := before + [Closed(shard)] + after, before + after;
    if before == [] {
      assert padded[1..] == after == events;
      NoPadding(completed, after);
    } else {
      ClosingPads(Certifies(completed, before[0]), before[1..], after, shard);
      assert padded[1..] == before[1..] + [Closed(shard)] + after && events[1..] == before[1..] + after;
    }
  }

  lemma {:induction false} PaddingStays(completed: seq<bool>, padded: seq<Event>, events: seq<Event>, shards: nat)
    requires Padding(completed, padded, events) && |completed| == shards
    requires forall e :: e in events ==> e.shard < shards
    ensures forall e :: e in padded ==> e.shard < shards
    decreases |padded|
  {
    if padded != [] {
      var e := padded[0];
      assert forall x :: x in padded ==> x == e || x in padded[1..];
      if e.Closed? && e.shard < |completed| && completed[e.shard] && Padding(completed, padded[1..], events) {
        PaddingStays(completed, padded[1..], events, shards);
      } else {
        PaddingStays(Certifies(completed, e), padded[1..], events[1..], shards);
      }
    }
  }

  /** A certified shard's stream may close at any moment: the loop does not see it. */
  lemma {:induction false} ClosingsChangeNothing(
    o: Options, s: State, cells: seq<Control>, padded: seq<Event>, events: seq<Event>)
    requires 1 <= o.k && |cells| == |s.completed| && Padding(s.completed, padded, events)
    requires forall e :: e in events ==> e.shard < |s.completed|
    requires forall e :: e in padded ==> e.shard < |s.completed|
    ensures Run(o, s, cells, padded) == Run(o, s, cells, events)
    decreases |padded|
  {
    if 0 < s.remaining && padded != [] {
      var e := padded[0];
      if e.Closed? && s.completed[e.shard] && Padding(s.completed, padded[1..], events) {
        ClosingsChangeNothing(o, s, cells, padded[1..], events);
      } else if Handle(o, s, e).Continue? {
        var next := Handle(o, s, e);
        var shown := if next.raised then Broadcast(cells, s.completed, FloorUpdate(next.state.published)) else cells;
        HandleCertifies(o, s, e);
        ClosingsChangeNothing(o, next.state, shown, padded[1..], events[1..]);
      }
    }
  }

  /** The events certify that shard `i` is done. */
  ghost predicate CertifiedIn(events: seq<Event>, i: nat) {
    exists n :: 0 <= n < |events| && events[n] == Message(i, Summary(true))
  }

  /** When the query fails, every shard that has not certified is told to stop. */
  lemma {:induction false} FailureStopsShards(o: Options, s: State, cells: seq<Control>, events: seq<Event>)
    requires 1 <= o.k && |cells| == |s.completed|
    requires forall e :: e in events ==> e.shard < |s.completed|
    requires Run(o, s, cells, events).0.Err?
    ensures var after := Run(o, s, cells, events).1;
            |after| == |cells|
            && forall i :: 0 <= i < |cells| ==> after[i] == Stop || s.completed[i] || CertifiedIn(events, i)
    decreases |events|
  {
    if 0 < s.remaining && events != [] && Handle(o, s, events[0]).Continue? {
      var next := Handle(o, s, events[0]);
      var shown := if next.raised then Broadcast(cells, s.completed, FloorUpdate(next.state.published)) else cells;
      FailureStopsShards(o, next.state, shown, events[1..]);
      var after := Run(o, s, cells, events).1;
      forall i | 0 <= i < |cells| && after[i] != Stop && !s.completed[i] ensures CertifiedIn(events, i) {
        if CertifiedIn(events[1..], i) {
          var n :| 0 <= n < |events[1..]| && events[1..][n] == Message(i, Summary(true));
          assert events[n + 1] == Message(i, Summary(true));
        } else {
          assert events[0] == Message(i, Summary(true));
        }
      }
    }
  }

  method BroadcastInPlace(cells: array<Control>, completed: array<bool>, c: Control)
    requires cells.Length == completed.Length
    modifies cells
    ensures cells[..] == Broadcast(old(cells[..]), completed[..], c)
    ensures forall i :: 0 <= i < cells.Length ==> cells[i] == if completed[i] then old(cells[i]) else c
  {
    for rank := 0 to cells.Length
      invariant forall i :: 0 <= i < rank ==> cells[i] == if completed[i] then old(cells[i]) else c
      invariant forall i :: rank <= i < cells.Length ==> cells[i] == old(cells[i])
    {
      if !completed[rank] { cells[rank] := c; }
    }
  }

  /** The per-candidate loop over one accepted batch. */
  method OfferBatch(o: Options, heap0: seq<HeapCandidate>, ties0: seq<HeapCandidate>, shard: nat, b: Batch)
    returns (nan: bool, heap: seq<HeapCandidate>, ties: seq<HeapCandidate>)
    requires 1 <= o.k && Rankable(o, b)
    ensures nan <==> !NanFree(b, |b.scores|)
    ensures !nan ==> heap == OfferAll(heap0, o, shard, b, |b.scores|)
    ensures !nan ==> ties == if o.tieComplete then ties0 + ToCandidates(o, shard, b, |b.scores|) else ties0
  {
    heap, ties, nan := heap0, ties0, false;
    for rank := 0 to |b.scores|
      invariant NanFree(b, rank)
      invariant heap == OfferAll(heap0, o, shard, b, rank)
      invariant ties == if o.tieComplete then ties0 + ToCandidates(o, shard, b, rank) else ties0
    {
      if IsNan(b.scores[rank]) {
        nan := true;
        return;
      }
      var candidate := ToCandidate(o, shard, b, rank);
      if o.tieComplete { ties := ties + [candidate]; }
      if |heap| < o.k {
        heap := Insert(Before, candidate, heap);
      } else if Before(candidate, heap[|heap| - 1]) {
        heap := heap[..|heap| - 1];
        heap := Insert(Before, candidate, heap);
      }
    }
  }

  /** One candidate batch: offer it, then raise and broadcast the floor if the
      heap's root has passed it. */
  method AcceptBatch(o: Options, heap0: seq<HeapCandidate>, ties0: seq<HeapCandidate>, floor0: Score,
                     completed: array<bool>, cells: array<Control>, ghost remaining: nat, shard: nat, b: Batch)
    returns (failure: Option<Failure>, heap: seq<HeapCandidate>, ties: seq<HeapCandidate>, published: Score,
             ghost raised: bool)
    requires 1 <= o.k && shard < completed.Length == cells.Length
    modifies cells
    ensures TakeBatch(o, State(heap0, ties0, floor0, completed[..], remaining), shard, b) ==
            if failure.Some? then Fail(failure.value)
            else Continue(State(heap, ties, published, completed[..], remaining), raised)
    ensures cells[..] ==
            if failure.None? && raised then Broadcast(old(cells[..]), completed[..], FloorUpdate(published))
            else old(cells[..])
  {
    failure, heap, ties, published, raised := None, heap0, ties0, floor0, false;
    if completed[shard] {
      failure := Some(BatchAfterSummary);
    } else if !Aligned(b) {
      failure := Some(MisalignedBatch);
    } else if o.stableLabelOrder && b.labels == [] && b.scores != [] {
      failure := Some(UnlabelledBatch);
    } else {
      var nan;
      nan, heap, ties := OfferBatch(o, heap0, ties0, shard, b);
      if nan {
        failure := Some(NanScore);
      } else if |heap| == o.k {
        var floor := heap[o.k - 1].score;
        if Lt(published, floor) {
          published, raised := floor, true;
          if o.tieComplete { ties := Prune(ties, floor); }
          BroadcastInPlace(cells, completed, FloorUpdate(floor));
        }
      }
    }
  }

  /** The query loop, draining shard events until every shard has certified. */
  method StreamQuery(o: Options, shards: nat, events: seq<Event>) returns (r: Result, cells: array<Control>)
    requires 1 <= o.k && forall e :: e in events ==> e.shard < shards
    ensures (r, cells[..]) == Run(o, InitialState(o, shards), seq(shards, _ => Start), events)
  {
    var heap: seq<HeapCandidate>, ties: seq<HeapCandidate> := [], [];
    var published := o.StartFloor();
    var completed := new bool[shards](_ => false);
    var remaining := shards;
    cells := new Control[shards](_ => Start);
    assert completed[..] == seq(shards, _ => false);
    assert cells[..] == seq(shards, _ => Start);
    ghost var answer := Run(o, InitialState(o, shards), seq(shards, _ => Start), events);
    var at := 0;
    ghost var state, shown := InitialState(o, shards), cells[..];
    assert events[at..] == events;
    while remaining > 0
      invariant at <= |events| && fresh(cells) && fresh(completed)
      invariant cells.Length == completed.Length == shards
      invariant state == State(heap, ties, published, completed[..], remaining) && shown == cells[..]
      invariant Run(o, state, shown, events[at..]) == answer
      decreases |events| - at
    {
      if at == |events| {
        BroadcastInPlace(cells, completed, Stop);
        return Err(AllStreamsClosed), cells;
      }
      var event := events[at];
      assert events[at..][0] == event && events[at..][1..] == events[at + 1..];
      at := at + 1;
      ghost var raised := false;
      var failure: Option<Failure> := None;
      match event {
      case Message(shard, Candidates(b)) =>
        failure, heap, ties, published, raised :=
          AcceptBatch(o, heap, ties, published, completed, cells, remaining, shard, b);
      case Message(shard, Summary(done)) =>
        if completed[shard] {
          failure := Some(SecondSummary);
        } else if !done {
          failure := Some(IncompleteScan);
        } else {
          completed[shard] := true;
          remaining := remaining - 1;
        }
      case Message(_, EmptyPayload) =>
        failure := Some(EmptyResponse);
      case Error(_) =>
        failure := Some(ShardError);
      case Closed(shard) =>
        if !completed[shard] { failure := Some(ClosedEarly); }
      }
      if failure.Some? {
        assert Handle(o, state, event) == Fail(failure.value);
        BroadcastInPlace(cells, completed, Stop);
        return Err(failure.value), cells;
      }
      ghost var next := State(heap, ties, published, completed[..], remaining);
      assert Handle(o, state, event) == Continue(next, raised);
      assert cells[..] == if raised then Broadcast(shown, state.completed, FloorUpdate(published)) else shown;
      state, shown := next, cells[..];
    }
    r := Ok(Finish(o, State(heap, ties, published, completed[..], remaining)));
  }
}
