/** What a candidate stream's completion says, told without its loop: which
    inputs end it well, what its counts are, and why it ended otherwise. */
module CandidateOutcome {
  import opened Float32
  import opened Ranking
  import opened Rows
  import opened Wire
  import opened CandidateStream
  import C = Collector
  import S = ScanSafety
  import N = ScanRuns

  // ---- When a stream is certified ----

  /** The caller's side is open for input `n`. */
  ghost predicate Open(inputs: seq<Input>, n: nat)
    requires n <= |inputs|
  {
    forall m :: 0 <= m < n ==> !inputs[m].InboundClosed?
  }

  /** Shard `i` certified among the first `n` inputs. */
  ghost predicate Done(inputs: seq<Input>, n: nat, i: nat)
    requires n <= |inputs|
  {
    exists m :: 0 <= m < n && inputs[m] == FromShard(C.Message(i, C.Summary(true)))
  }

  ghost predicate AllDone(shards: nat, inputs: seq<Input>, n: nat)
    requires n <= |inputs|
  {
    forall i: nat :: i < shards ==> Done(inputs, n, i)
  }

  /** Scores, slots and labels of one length and no score a NaN. */
  ghost predicate Usable(b: C.Batch) {
    |b.slots| == |b.scores| == |b.labels| && forall j :: 0 <= j < |b.scores| ==> !IsNan(b.scores[j])
  }

  /** Input `m` is in order after those before it. */
  ghost predicate InOrder(inputs: seq<Input>, m: nat)
    requires m < |inputs|
  {
    match inputs[m]
    case Tick => true
    case InboundClosed => true
    case Floor(floor) => Open(inputs, m) ==> !IsNan(floor)
    case CallerStop => !Open(inputs, m)
    case Restart => !Open(inputs, m)
    case InboundError => !Open(inputs, m)
    case AllClosed => false
    case Deadline => false
    case Gone => false
    case FromShard(e) =>
      match e
      case Message(i, Candidates(b)) => !Done(inputs, m, i) && Usable(b)
      case Message(i, Summary(done)) => !Done(inputs, m, i) && done
      case Message(_, EmptyPayload) => false
      case Error(_) => false
      case Closed(i) => Done(inputs, m, i)
  }

  ghost predicate AllInOrder(inputs: seq<Input>, n: nat)
    requires n <= |inputs|
  {
    forall m :: 0 <= m < n ==> InOrder(inputs, m)
  }

  /** The stream after `n` inputs, by what they were. */
  ghost predicate Follows(shards: nat, inputs: seq<Input>, n: nat, s: Stream)
    requires n <= |inputs|
  {
    && (!s.ended <==> AllInOrder(inputs, n) && !AllDone(shards, inputs, n))
    && (!s.ended ==> (s.inboundOpen <==> Open(inputs, n))
                     && |s.completed| == shards && s.remaining == S.Uncertified(s.completed)
                     && forall i: nat :: i < shards ==> (s.completed[i] <==> Done(inputs, n, i)))
    && (Certified(s) <==> Serves(shards, inputs, n))
  }

  lemma DoneNext(inputs: seq<Input>, n: nat, i: nat)
    requires n < |inputs|
    ensures Done(inputs, n + 1, i) <==>
              Done(inputs, n, i) || inputs[n] == FromShard(C.Message(i, C.Summary(true)))
  {
  }

  lemma OrderNext(inputs: seq<Input>, n: nat)
    requires n < |inputs|
    ensures AllInOrder(inputs, n + 1) <==> AllInOrder(inputs, n) && InOrder(inputs, n)
    ensures Open(inputs, n + 1) <==> Open(inputs, n) && !inputs[n].InboundClosed?
  {
  }

  /** One input on a stream that has not ended. */
  lemma TurnFollows(s: Stream, inputs: seq<Input>, n: nat)
    requires n < |inputs| && Sized(s) && ForShards(inputs[n], |s.completed|) && !s.ended && 0 < s.remaining
    requires s.remaining == S.Uncertified(s.completed) && (s.inboundOpen <==> Open(inputs, n)) && !Certified(s)
    requires forall i: nat :: i < |s.completed| ==> (s.completed[i] <==> Done(inputs, n, i))
    ensures var t := Turn(s, inputs[n]);
            && t.completed == C.Certifies(s.completed, if inputs[n].FromShard? && InOrder(inputs, n)
                                                       then inputs[n].event else C.Error(0))
            && (!InOrder(inputs, n) ==> t.ended && !Certified(t))
            && (InOrder(inputs, n) ==>
                  && t.remaining == S.Uncertified(t.completed)
                  && (t.inboundOpen <==> Open(inputs, n + 1))
                  && (t.ended <==> t.remaining == 0) && (Certified(t) <==> t.ended))
  {
    OrderNext(inputs, n);
    if inputs[n].FromShard? { EventFollows(s, inputs, n); } else { OtherFollows(s, inputs, n); }
  }

  lemma OtherFollows(s: Stream, inputs: seq<Input>, n: nat)
    requires n < |inputs| && !inputs[n].FromShard? && Sized(s) && !s.ended && 0 < s.remaining && !Certified(s)
    requires s.inboundOpen <==> Open(inputs, n)
    requires Open(inputs, n + 1) <==> Open(inputs, n) && !inputs[n].InboundClosed?
    ensures var t := Turn(s, inputs[n]);
            && t.completed == s.completed && t.remaining == s.remaining && !Certified(t)
            && (!InOrder(inputs, n) ==> t.ended)
            && (InOrder(inputs, n) ==> !t.ended && (t.inboundOpen <==> Open(inputs, n + 1)))
  {
  }

  lemma EventFollows(s: Stream, inputs: seq<Input>, n: nat)
    requires n < |inputs| && inputs[n].FromShard? && Sized(s) && inputs[n].event.shard < |s.completed|
    requires !s.ended && 0 < s.remaining == S.Uncertified(s.completed) && !Certified(s)
    requires forall i: nat :: i < |s.completed| ==> (s.completed[i] <==> Done(inputs, n, i))
    ensures var e := inputs[n].event; var t := OnShard(s, e);
            && (ShardProblem(s.completed, e).None? <==> InOrder(inputs, n))
            && (!InOrder(inputs, n) ==> t.ended && !Certified(t) && t.completed == s.completed)
            && (InOrder(inputs, n) ==>
                  && t.completed == C.Certifies(s.completed, e) && t.remaining == S.Uncertified(t.completed)
                  && t.inboundOpen == s.inboundOpen
                  && (t.ended <==> t.remaining == 0) && (Certified(t) <==> t.ended))
  {
    var e := inputs[n].event;
    assert s.completed[e.shard] <==> Done(inputs, n, e.shard);
    if e.Message? && e.payload.Summary? && InOrder(inputs, n) { N.UncertifiedDrops(s.completed, e.shard); }
  }

  lemma DoneStays(shards: nat, inputs: seq<Input>, n: nat)
    requires n < |inputs|
    ensures AllDone(shards, inputs, n) ==> AllDone(shards, inputs, n + 1)
  {
    var m := n + 1;
    if AllDone(shards, inputs, n) {
      forall i: nat | i < shards ensures Done(inputs, m, i) {
        assert Done(inputs, n, i);
        DoneNext(inputs, n, i);
      }
    }
  }

  lemma {:induction false} DoneLater(shards: nat, inputs: seq<Input>, k: nat, n: nat)
    requires k <= n <= |inputs|
    ensures AllDone(shards, inputs, k) ==> AllDone(shards, inputs, n)
    ensures AllInOrder(inputs, n) ==> AllInOrder(inputs, k)
    decreases n
  {
    if k < n {
      DoneLater(shards, inputs, k, n - 1);
      DoneStays(shards, inputs, n - 1);
      OrderNext(inputs, n - 1);
    }
  }

  /** Some stretch of the inputs from the start, no longer than `n`, is in order
      and certifies every shard. */
  ghost predicate Serves(shards: nat, inputs: seq<Input>, n: nat)
    requires n <= |inputs|
  {
    exists k :: 0 <= k <= n && AllInOrder(inputs, k) && AllDone(shards, inputs, k)
  }

  lemma ServesNext(shards: nat, inputs: seq<Input>, n: nat)
    requires n < |inputs|
    ensures Serves(shards, inputs, n + 1) <==>
              Serves(shards, inputs, n) || (AllInOrder(inputs, n + 1) && AllDone(shards, inputs, n + 1))
  {
    if Serves(shards, inputs, n + 1) {
      var k :| 0 <= k <= n + 1 && AllInOrder(inputs, k) && AllDone(shards, inputs, k);
      if k <= n { assert Serves(shards, inputs, n); }
    }
    if Serves(shards, inputs, n) {
      var k :| 0 <= k <= n && AllInOrder(inputs, k) && AllDone(shards, inputs, k);
    }
  }

  lemma ServedMeansDone(shards: nat, inputs: seq<Input>, n: nat)
    requires n <= |inputs| && AllInOrder(inputs, n)
    ensures Serves(shards, inputs, n) ==> AllDone(shards, inputs, n)
  {
    if Serves(shards, inputs, n) {
      var k :| 0 <= k <= n && AllInOrder(inputs, k) && AllDone(shards, inputs, k);
      DoneLater(shards, inputs, k, n);
    }
  }

  lemma EndedFollows(shards: nat, inputs: seq<Input>, n: nat, s: Stream)
    requires n < |inputs| && Follows(shards, inputs, n, s) && s.ended
    ensures Follows(shards, inputs, n + 1, s)
  {
    OrderNext(inputs, n);
    DoneStays(shards, inputs, n);
    ServesNext(shards, inputs, n);
  }

  lemma ReactFollows(shards: nat, inputs: seq<Input>, n: nat, s: Stream)
    requires n < |inputs| && Follows(shards, inputs, n, s) && !s.ended
    requires Sized(s) && |s.completed| == shards && ForShards(inputs[n], shards) && 0 < s.remaining
    ensures Follows(shards, inputs, n + 1, React(s, inputs[n]))
  {
    ServedMeansDone(shards, inputs, n);
    TurnFollows(s, inputs, n);
    OrderNext(inputs, n);
    ServesNext(shards, inputs, n);
    var t := Turn(s, inputs[n]);
    if InOrder(inputs, n) {
      var m := n + 1;
      forall i: nat | i < shards ensures t.completed[i] <==> Done(inputs, m, i) {
        assert s.completed[i] <==> Done(inputs, n, i);
        DoneNext(inputs, n, i);
      }
      N.UncertifiedAll(t.completed);
      assert t.remaining == 0 <==> AllDone(shards, inputs, m);
    }
  }

  lemma {:induction false} StreamFollows(shards: nat, floor: Option<Score>, inputs: seq<Input>, n: nat)
    requires 0 < shards && AllForShards(inputs, shards) && n <= |inputs|
    ensures AllForShards(inputs[..n], shards) && Follows(shards, inputs, n, Drive(shards, floor, inputs[..n]))
  {
    if n == 0 {
      N.UncertifiedAll(Opening(shards, floor).completed);
      assert !Done(inputs, 0, 0);
      assert !AllDone(shards, inputs, 0);
    } else {
      StreamFollows(shards, floor, inputs, n - 1);
      DriveNext(shards, floor, inputs, n - 1);
      var s := Drive(shards, floor, inputs[..n - 1]);
      if s.ended { EndedFollows(shards, inputs, n - 1, s); } else { ReactFollows(shards, inputs, n - 1, s); }
    }
  }

  /** A stream ends with completed=true exactly when some stretch of its inputs
      from the start is in order and certifies every shard. */
  lemma StreamCertifiesIff(shards: nat, floor: Option<Score>, inputs: seq<Input>)
    requires 0 < shards && AllForShards(inputs, shards)
    ensures Certified(Drive(shards, floor, inputs)) <==>
              exists k :: 0 <= k <= |inputs| && AllInOrder(inputs, k) && AllDone(shards, inputs, k)
  {
    StreamFollows(shards, floor, inputs, |inputs|);
    assert inputs[..|inputs|] == inputs;
  }

  // ---- What a completion counts ----

  ghost function Finished(completed: seq<bool>): set<nat> {
    set i: nat | i < |completed| && completed[i]
  }

  lemma {:induction false} FinishedCount(completed: seq<bool>)
    ensures |Finished(completed)| + S.Uncertified(completed) == |completed|
    decreases |completed|
  {
    if completed == [] {
      assert Finished(completed) == {};
    } else {
      var n := |completed| - 1;
      FinishedCount(completed[..n]);
      UncertifiedLast(completed);
      assert Finished(completed) == Finished(completed[..n]) + if completed[n] then {n} else {};
    }
  }

  lemma {:induction false} UncertifiedLast(completed: seq<bool>)
    requires completed != []
    ensures var n := |completed| - 1;
            S.Uncertified(completed) == S.Uncertified(completed[..n]) + if completed[n] then 0 else 1
  {
    if 1 < |completed| {
      var n := |completed| - 1;
      UncertifiedLast(completed[1..]);
      assert completed[1..][..n - 1] == completed[..n][1..];
    }
  }

  /** Only an uncertified shard's good summary certifies anything. */
  lemma TurnCertifies(s: Stream, e: Input)
    requires Sized(s) && ForShards(e, |s.completed|) && !s.ended && 0 < s.remaining
    ensures var t := React(s, e);
            if e.FromShard? && e.event.Message? && e.event.payload == C.Summary(true) && !s.completed[e.event.shard]
            then t.completed == s.completed[e.event.shard := true] && t.remaining == s.remaining - 1
            else t.completed == s.completed && t.remaining == s.remaining
  {
  }

  lemma TurnCounts(s: Stream, e: Input)
    requires Sized(s) && ForShards(e, |s.completed|) && !s.ended && 0 < s.remaining == S.Uncertified(s.completed)
    ensures var t := React(s, e); t.remaining == S.Uncertified(t.completed)
    ensures forall i :: 0 <= i < |s.completed| && React(s, e).completed[i] ==>
              s.completed[i] || e == FromShard(C.Message(i, C.Summary(true)))
  {
    TurnCertifies(s, e);
    if e.FromShard? && e.event.Message? && e.event.payload == C.Summary(true) && !s.completed[e.event.shard] {
      N.UncertifiedDrops(s.completed, e.event.shard);
    }
  }

  lemma {:induction false} RunCounts(shards: nat, floor: Option<Score>, inputs: seq<Input>)
    requires 0 < shards && AllForShards(inputs, shards)
    ensures var s := Drive(shards, floor, inputs);
            && s.remaining == S.Uncertified(s.completed)
            && forall i: nat :: i < shards && s.completed[i] ==> Done(inputs, |inputs|, i)
  {
    if inputs == [] {
      N.UncertifiedAll(Opening(shards, floor).completed);
    } else {
      var n := |inputs| - 1;
      RunCounts(shards, floor, inputs[..n]);
      var s, t := Drive(shards, floor, inputs[..n]), Drive(shards, floor, inputs);
      if !s.ended { TurnCounts(s, inputs[n]); }
      forall i: nat | i < shards && t.completed[i] ensures Done(inputs, |inputs|, i) {
        if s.completed[i] { assert Done(inputs[..n], n, i); }
      }
    }
  }

  /** The counts in any completion, good or bad: the records in the messages
      before it, the shards that certified, and all shards. */
  lemma CompletionCounts(shards: nat, floor: Option<Score>, inputs: seq<Input>)
    requires 0 < shards < 0x1_0000_0000 && AllForShards(inputs, shards)
    requires var sent := Drive(shards, floor, inputs).sent; sent != [] && sent[|sent| - 1].Completion?
    ensures var s := Drive(shards, floor, inputs); var last := s.sent[|s.sent| - 1];
            var carried := |Decode(Payload(s.sent))|;
            && last.emitted == (if carried < U64 then carried else U64 - 1)
            && last.shardsTotal == shards
            && last.shardsCompleted == |Finished(s.completed)|
            && forall i: nat :: i < shards && s.completed[i] ==> Done(inputs, |inputs|, i)
  {
    StreamsKeep(shards, floor, inputs);
    RunCounts(shards, floor, inputs);
    var s := Drive(shards, floor, inputs);
    FinishedCount(s.completed);
    DecodeCounts(Payload(s.sent));
  }

  lemma {:induction false} DecodeCounts(b: seq<byte>)
    requires |b| % 12 == 0
    ensures |Decode(b)| == |b| / 12
  {
    if 12 <= |b| { DecodeCounts(b[12..]); }
  }

  /** While a stream runs fewer than 64 KiB wait, and a tick leaves none. */
  lemma {:induction false} PendingStaysSmall(shards: nat, floor: Option<Score>, inputs: seq<Input>)
    requires 0 < shards && AllForShards(inputs, shards)
    ensures var s := Drive(shards, floor, inputs);
            && |s.pending| < 65536
            && (inputs != [] && inputs[|inputs| - 1] == Tick && !s.ended ==> s.pending == [])
  {
    if inputs != [] {
      var n := |inputs| - 1;
      PendingStaysSmall(shards, floor, inputs[..n]);
      ReactStaysSmall(Drive(shards, floor, inputs[..n]), inputs[n]);
    }
  }

  lemma ReactStaysSmall(s: Stream, e: Input)
    requires Sized(s) && ForShards(e, |s.completed|) && (!s.ended ==> 0 < s.remaining) && |s.pending| < 65536
    ensures |React(s, e).pending| < 65536 && (e == Tick && !React(s, e).ended ==> React(s, e).pending == [])
  {
  }

  /** Nothing is sent for a shard's rows until 64 KiB of them wait; then all go
      out as one message. */
  lemma RowsGoOutTogether(s: Stream, e: C.Event)
    requires Sized(s) && ForShards(FromShard(e), |s.completed|) && !s.ended && 0 < s.remaining
    requires e.Message? && e.payload.Candidates? && !React(s, FromShard(e)).ended
    ensures var t, waiting := React(s, FromShard(e)), |s.pending| + 12 * |e.payload.batch.scores|;
            if waiting < 65536 then t.sent == s.sent && |t.pending| == waiting && s.pending <= t.pending
            else |t.sent| == |s.sent| + 1 && s.sent <= t.sent && t.pending == []
                 && t.sent[|s.sent|].Rows? && |t.sent[|s.sent|].candidates| == waiting
  {
  }

  // ---- Why a stream ends ----

  /** Why an input that ends a stream without certifying it does so; only a caller
      that is gone gets no completion. */
  lemma ProblemNamesInput(s: Stream, e: Input)
    requires Sized(s) && ForShards(e, |s.completed|) && !s.ended && 0 < s.remaining && React(s, e).ended
    ensures var t := React(s, e);
            if e == Gone then t.sent == s.sent
            else
              && t.sent != [] && t.sent[|t.sent| - 1].Completion?
              && var problem := t.sent[|t.sent| - 1].problem;
                 match e
                 case Floor(_) => problem == Some(NanFloor)
                 case CallerStop => problem == Some(Cancelled)
                 case Restart => problem == Some(SecondStart)
                 case InboundError => problem == Some(RequestFailed)
                 case AllClosed => problem == Some(Shard(C.AllStreamsClosed))
                 case Deadline => problem == Some(DeadlineExceeded)
                 case FromShard(event) => problem.Some? ==> problem.value == Shard(Reason(s.completed, event))
                 case _ => false
  {
  }

  /** Why an event of a shard that is not in order ends the stream. */
  ghost function Reason(completed: seq<bool>, e: C.Event): C.Failure
    requires e.shard < |completed|
  {
    match e
    case Message(i, Candidates(b)) =>
      if completed[i] then C.BatchAfterSummary
      else if |b.scores| != |b.slots| || |b.labels| != |b.scores| then C.MisalignedBatch
      else C.NanScore
    case Message(i, Summary(_)) => if completed[i] then C.SecondSummary else C.IncompleteScan
    case Message(_, EmptyPayload) => C.EmptyResponse
    case Error(_) => C.ShardError
    case Closed(_) => C.ClosedEarly
  }
}
