/** The select loop of the candidate stream, proved against `Drive`. */
module CandidateLoop {
  import opened Float32
  import opened Ranking
  import opened Rows
  import opened Wire
  import opened CandidateStream
  import C = Collector

  /** The per-candidate loop over one aligned batch. */
  method PackBatch(pending0: seq<byte>, b: C.Batch) returns (nan: bool, pending: seq<byte>)
    requires Labelled(b)
    ensures nan <==> !C.NanFree(b, |b.scores|)
    ensures !nan ==> pending == pending0 + Encode(RecordsOf(b, |b.scores|))
  {
    pending, nan := pending0, false;
    for n := 0 to |b.scores|
      invariant C.NanFree(b, n) && pending == pending0 + Encode(RecordsOf(b, n))
    {
      if IsNan(b.scores[n]) {
        nan := true;
        return;
      }
      var record := Record(b.labels[n] % U64, b.scores[n]);
      EncodeConcat(RecordsOf(b, n), [record]);
      EncodeOne(record);
      pending := pending + LeBytes(record.rowLabel, 8);
      pending := pending + LeBytes(record.score, 4);
    }
  }

  method FlushPending(sent0: seq<Message>, pending0: seq<byte>, emitted0: nat, ghost s: Stream)
    returns (sent: seq<Message>, pending: seq<byte>, emitted: nat)
    requires s.sent == sent0 && s.pending == pending0 && s.emitted == emitted0
    ensures Flush(s) == s.(sent := sent, pending := pending, emitted := emitted)
  {
    sent, pending, emitted := sent0, pending0, emitted0;
    if pending != [] {
      var candidates := pending;
      pending := [];
      sent := sent + [Rows(candidates)];
      emitted := Saturated(emitted + |candidates| / 12, U64);
    }
  }

  /** The stream as the loop leaves it: with a certificate, unless the caller
      is gone. */
  function Left(s: Stream, gone: bool, problem: Option<Problem>): (t: Stream)
    ensures t.ended && t.cells == s.cells && t.completed == s.completed
  {
    if gone then s.(ended := true) else End(s, problem)
  }

  /** A message from the caller's side of the stream. */
  method TakeRequest(input: Input, floor0: Score, completed: array<bool>, cells: array<C.Control>, ghost s: Stream)
    returns (problem: Option<Problem>, lastFloor: Score, inboundOpen: bool)
    requires input.Floor? || input.CallerStop? || input.Restart? || input.InboundError? || input.InboundClosed?
    requires Sized(s) && !s.ended && 0 < s.remaining && s.inboundOpen
    requires s.completed == completed[..] && s.cells == cells[..] && s.lastFloor == floor0
    requires cells.Length == completed.Length
    modifies cells
    ensures var t := s.(lastFloor := lastFloor, inboundOpen := inboundOpen, cells := cells[..]);
            Turn(s, input) == if problem.Some? then End(t, problem) else t
  {
    problem, lastFloor, inboundOpen := None, floor0, true;
    match input {
    case Floor(floor) =>
      if IsNan(floor) {
        problem := Some(NanFloor);
      } else if Lt(lastFloor, floor) {
        lastFloor := floor;
        C.BroadcastInPlace(cells, completed, C.FloorUpdate(floor));
      }
    case CallerStop =>
      problem := Some(Cancelled);
    case Restart =>
      problem := Some(SecondStart);
    case InboundError =>
      problem := Some(RequestFailed);
    case InboundClosed =>
      inboundOpen := false;
    }
  }

  /** Everything the loop can pick up but an event from the shards. */
  method TakeOther(input: Input, floor0: Score, open0: bool, sent0: seq<Message>, pending0: seq<byte>, emitted0: nat,
                   completed: array<bool>, cells: array<C.Control>, ghost s: Stream)
    returns (problem: Option<Problem>, gone: bool, lastFloor: Score, inboundOpen: bool,
             sent: seq<Message>, pending: seq<byte>, emitted: nat)
    requires !input.FromShard? && Sized(s) && !s.ended && 0 < s.remaining && cells.Length == completed.Length
    requires s.completed == completed[..] && s.cells == cells[..] && s.lastFloor == floor0 && s.inboundOpen == open0
    requires s.sent == sent0 && s.pending == pending0 && s.emitted == emitted0
    modifies cells
    ensures var t := s.(lastFloor := lastFloor, inboundOpen := inboundOpen, cells := cells[..],
                        sent := sent, pending := pending, emitted := emitted);
            Turn(s, input) == if gone || problem.Some? then Left(t, gone, problem) else t
  {
    problem, gone, lastFloor, inboundOpen := None, false, floor0, open0;
    sent, pending, emitted := sent0, pending0, emitted0;
    if input.Tick? {
      sent, pending, emitted := FlushPending(sent, pending, emitted, s);
    } else if input.AllClosed? {
      problem := Some(Shard(C.AllStreamsClosed));
    } else if input.Deadline? {
      problem := Some(DeadlineExceeded);
    } else if input.Gone? {
      gone := true;
    } else if inboundOpen {
      problem, lastFloor, inboundOpen := TakeRequest(input, lastFloor, completed, cells, s);
    }
  }

  /** The checks a shard's message must pass, with its batch packed. */
  method CheckEvent(e: C.Event, completed: array<bool>, pending0: seq<byte>)
    returns (problem: Option<Problem>, pending: seq<byte>)
    requires e.shard < completed.Length
    ensures problem == ShardProblem(completed[..], e)
    ensures problem.None? ==> pending == pending0 + Encode(ShardRecords(completed[..], e))
  {
    problem, pending := None, pending0;
    match e {
    case Message(shard, Candidates(b)) =>
      if completed[shard] {
        problem := Some(Shard(C.BatchAfterSummary));
      } else if |b.scores| != |b.slots| || |b.labels| != |b.scores| {
        problem := Some(Shard(C.MisalignedBatch));
      } else {
        var nan, packed := PackBatch(pending, b);
        if nan { problem := Some(Shard(C.NanScore)); } else { pending := packed; }
      }
    case Message(shard, Summary(done)) =>
      if completed[shard] {
        problem := Some(Shard(C.SecondSummary));
      } else if !done {
        problem := Some(Shard(C.IncompleteScan));
      }
    case Message(_, EmptyPayload) =>
      problem := Some(Shard(C.EmptyResponse));
    case Error(_) =>
      problem := Some(Shard(C.ShardError));
    case Closed(shard) =>
      if !completed[shard] { problem := Some(Shard(C.ClosedEarly)); }
    }
  }

  /** An event from the shards; the last certificate ends the stream. */
  method TakeEvent(e: C.Event, completed: array<bool>, remaining0: nat, certified0: nat,
                   sent0: seq<Message>, pending0: seq<byte>, emitted0: nat, ghost s: Stream)
    returns (problem: Option<Problem>, remaining: nat, certified: nat,
             sent: seq<Message>, pending: seq<byte>, emitted: nat)
    requires Sized(s) && !s.ended && e.shard < completed.Length && 0 < remaining0
    requires s.completed == completed[..] && s.remaining == remaining0 && s.shardsCompleted == certified0
    requires s.sent == sent0 && s.pending == pending0 && s.emitted == emitted0
    modifies completed
    ensures var t := s.(completed := completed[..], remaining := remaining, shardsCompleted := certified,
                        sent := sent, pending := pending, emitted := emitted);
            Turn(s, FromShard(e)) == if problem.Some? || remaining == 0 then Left(t, false, problem) else t
  {
    remaining, certified, sent, emitted := remaining0, certified0, sent0, emitted0;
    problem, pending := CheckEvent(e, completed, pending0);
    if problem.Some? {
      pending := pending0;
    } else if e.Message? && e.payload.Candidates? {
      if CANDIDATE_BATCH_BYTES <= |pending| {
        sent, pending, emitted := FlushPending(sent, pending, emitted, s.(pending := pending));
      }
    } else if e.Message? {
      completed[e.shard] := true;
      certified := Saturated(certified + 1, U32);
      remaining := remaining - 1;
      if remaining == 0 {
        sent, pending, emitted := FlushPending(sent, pending, emitted, Certify(s, e.shard));
      }
    }
  }

  /** Send the certificate and drop the shard controls. */
  method Leave(sent0: seq<Message>, emitted: nat, certified: nat, gone: bool, problem: Option<Problem>,
               completed: array<bool>, cells: array<C.Control>, ghost s: Stream)
    returns (sent: seq<Message>)
    requires Sized(s) && cells.Length == completed.Length
    requires s.completed == completed[..] && s.cells == cells[..]
    requires s.sent == sent0 && s.emitted == emitted && s.shardsCompleted == certified
    modifies cells
    ensures var t := StopShards(Left(s, gone, problem)); sent == t.sent && cells[..] == t.cells
  {
    sent := sent0;
    if !gone {
      var shards := completed.Length;
      sent := sent + [Completion(problem.None?, emitted, certified, Saturated(shards, U32), problem)];
    }
    C.BroadcastInPlace(cells, completed, C.Stop);
  }

  /** Relay shard candidates until every shard has certified, the caller stops,
      or something fails; `inputs` are what the loop picks up, in order. */
  method RunCandidateStream(shards: nat, initialFloor: Option<Score>, inputs: seq<Input>)
    returns (sent: seq<Message>, cells: array<C.Control>)
    requires 0 < shards && AllForShards(inputs, shards)
    ensures sent == Drive(shards, initialFloor, inputs).sent
    ensures cells[..] == Drive(shards, initialFloor, inputs).cells
  {
    var completed := new bool[shards](_ => false);
    var remaining := shards;
    var lastFloor: Score := if initialFloor.None? then NEG_INFINITY else initialFloor.value;
    var pending: seq<byte>, emitted: nat, certified: nat, inboundOpen := [], 0, 0, true;
    sent := [];
    cells := new C.Control[shards](_ => C.Start);
    var at := 0;
    assert inputs[..0] == [];
    assert completed[..] == Opening(shards, initialFloor).completed && cells[..] == Opening(shards, initialFloor).cells;
    ghost var s := Drive(shards, initialFloor, inputs[..at]);
    var problem: Option<Problem>, gone, over := None, false, false;
    while at < |inputs| && !over
      invariant at <= |inputs| && AllForShards(inputs[..at], shards)
      invariant cells.Length == completed.Length == shards && fresh(cells) && fresh(completed)
      invariant s == Stream(completed[..], remaining, lastFloor, pending, emitted, certified, inboundOpen, cells[..],
                            sent, false)
      invariant !over ==> !gone
      invariant Drive(shards, initialFloor, inputs[..at]) == if over then StopShards(Left(s, gone, problem)) else s
    {
      var input := inputs[at];
      DriveNext(shards, initialFloor, inputs, at);
      at := at + 1;
      ghost var was := s;
      if input.FromShard? {
        problem, remaining, certified, sent, pending, emitted :=
          TakeEvent(input.event, completed, remaining, certified, sent, pending, emitted, was);
      } else {
        problem, gone, lastFloor, inboundOpen, sent, pending, emitted :=
          TakeOther(input, lastFloor, inboundOpen, sent, pending, emitted, completed, cells, was);
      }
      over := gone || problem.Some? || remaining == 0;
      s := Stream(completed[..], remaining, lastFloor, pending, emitted, certified, inboundOpen, cells[..],
                  sent, false);
      assert Turn(was, input) == if over then Left(s, gone, problem) else s;
    }
    if over {
      EndedStays(shards, initialFloor, inputs, at);
      sent := Leave(sent, emitted, certified, gone, problem, completed, cells, s);
    } else {
      assert inputs[..at] == inputs;
    }
  }

  /** Nothing that arrives after the end changes what was sent. */
  lemma {:induction false} EndedStays(shards: nat, floor: Option<Score>, inputs: seq<Input>, n: nat)
    requires 0 < shards && AllForShards(inputs, shards) && n <= |inputs|
    requires Drive(shards, floor, inputs[..n]).ended
    ensures Drive(shards, floor, inputs) == Drive(shards, floor, inputs[..n])
    decreases |inputs| - n
  {
    if n == |inputs| {
      assert inputs[..n] == inputs;
    } else {
      DriveNext(shards, floor, inputs, n);
      EndedStays(shards, floor, inputs, n + 1);
    }
  }
}
