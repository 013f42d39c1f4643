/** The candidate stream: the caller drives the floor, the coordinator relays
    shard candidates as packed records and certifies the end. */
module CandidateStream {
  import opened Float32
  import opened Ranking
  import opened Rows
  import opened Wire
  import C = Collector

  const CANDIDATE_BATCH_BYTES := 64 * 1024
  const U32 := 0x1_0000_0000

  datatype Problem =
    | Shard(failure: C.Failure) | NanFloor | Cancelled | SecondStart | RequestFailed | DeadlineExceeded

  datatype Message =
    | Rows(candidates: seq<byte>)
    | Completion(completed: bool, emitted: nat, shardsCompleted: nat, shardsTotal: nat, problem: Option<Problem>)

  /** What one turn of the select loop can pick up. `Gone` is the caller's side
      closing, noticed at once or by a send that fails. */
  datatype Input =
    | Tick
    | Floor(floor: Bits) | CallerStop | Restart | InboundError | InboundClosed
    | FromShard(event: C.Event) | AllClosed
    | Deadline | Gone

  datatype Stream = Stream(
    completed: seq<bool>, remaining: nat, lastFloor: Score, pending: seq<byte>, emitted: nat,
    shardsCompleted: nat, inboundOpen: bool, cells: seq<C.Control>, sent: seq<Message>, ended: bool)

  predicate Sized(s: Stream) {
    |s.cells| == |s.completed|
  }

  predicate ForShards(e: Input, shards: nat) {
    e.FromShard? ==> e.event.shard < shards
  }

  function Opening(shards: nat, initialFloor: Option<Score>): (s: Stream)
    ensures Sized(s)
  {
    Stream(seq(shards, _ => false), shards, if initialFloor.None? then NEG_INFINITY else initialFloor.value,
           [], 0, 0, true, seq(shards, _ => C.Start), [], false)
  }

  function Saturated(n: nat, limit: nat): nat
    requires 0 < limit
  {
    if n < limit then n else limit - 1
  }

  /** `flush_candidate_bytes`: an empty buffer sends nothing. */
  function Flush(s: Stream): Stream {
    if s.pending == [] then s
    else s.(pending := [], sent := s.sent + [Rows(s.pending)],
            emitted := Saturated(s.emitted + |s.pending| / 12, U64))
  }

  /** The certificate that ends the stream. */
  function Certificate(s: Stream, problem: Option<Problem>): Message {
    Completion(problem.None?, s.emitted, s.shardsCompleted, Saturated(|s.completed|, U32), problem)
  }

  function End(s: Stream, problem: Option<Problem>): Stream {
    s.(sent := s.sent + [Certificate(s, problem)], ended := true)
  }

  /** However the loop is left, dropping the control of a shard that has not
      certified tells that shard to stop. */
  function StopShards(s: Stream): Stream
    requires Sized(s)
  {
    s.(cells := C.Broadcast(s.cells, s.completed, C.Stop))
  }

  /** Only a floor strictly above every earlier one is passed on. */
  function OnFloor(s: Stream, floor: Bits): Stream
    requires Sized(s)
  {
    if IsNan(floor) then End(s, Some(NanFloor))
    else if Lt(s.lastFloor, floor) then
      s.(lastFloor := floor, cells := C.Broadcast(s.cells, s.completed, C.FloorUpdate(floor)))
    else s
  }

  predicate Labelled(b: C.Batch) {
    |b.scores| == |b.slots| == |b.labels|
  }

  /** The first `n` entries of a batch as records; a label is a u64. */
  function RecordsOf(b: C.Batch, n: nat): (r: seq<Record>)
    requires Labelled(b) && n <= |b.scores|
    ensures |r| == n
  {
    if n == 0 then [] else RecordsOf(b, n - 1) + [Record(b.labels[n - 1] % U64, b.scores[n - 1])]
  }

  /** Why a shard's message fails the stream. */
  function ShardProblem(completed: seq<bool>, e: C.Event): Option<Problem>
    requires e.shard < |completed|
  {
    match e
    case Message(shard, Candidates(b)) =>
      if completed[shard] then Some(Shard(C.BatchAfterSummary))
      else if !Labelled(b) then Some(Shard(C.MisalignedBatch))
      else if !C.NanFree(b, |b.scores|) then Some(Shard(C.NanScore))
      else None
    case Message(shard, Summary(done)) =>
      if completed[shard] then Some(Shard(C.SecondSummary))
      else if !done then Some(Shard(C.IncompleteScan))
      else None
    case Message(_, EmptyPayload) => Some(Shard(C.EmptyResponse))
    case Error(_) => Some(Shard(C.ShardError))
    case Closed(shard) => if completed[shard] then None else Some(Shard(C.ClosedEarly))
  }

  function Buffer(s: Stream, records: seq<Record>): Stream {
    var t := s.(pending := s.pending + Encode(records));
    if CANDIDATE_BATCH_BYTES <= |t.pending| then Flush(t) else t
  }

  function Certify(s: Stream, shard: nat): Stream
    requires shard < |s.completed| && 0 < s.remaining
  {
    s.(completed := s.completed[shard := true], remaining := s.remaining - 1,
       shardsCompleted := Saturated(s.shardsCompleted + 1, U32))
  }

  function OnShard(s: Stream, e: C.Event): Stream
    requires e.shard < |s.completed| && 0 < s.remaining
  {
    if ShardProblem(s.completed, e).Some? then End(s, ShardProblem(s.completed, e))
    else if e.Closed? then s
    else if e.payload.Candidates? then Buffer(s, RecordsOf(e.payload.batch, |e.payload.batch.scores|))
    else
      var t := Certify(s, e.shard);
      if t.remaining == 0 then End(Flush(t), None) else t
  }

  /** One turn of the loop. */
  function Turn(s: Stream, e: Input): (t: Stream)
    requires Sized(s) && ForShards(e, |s.completed|) && !s.ended && 0 < s.remaining
    ensures Sized(t) && |t.completed| == |s.completed| && (!t.ended ==> 0 < t.remaining)
  {
    match e
    case Tick => Flush(s)
    case Floor(floor) => if s.inboundOpen then OnFloor(s, floor) else s
    case CallerStop => if s.inboundOpen then End(s, Some(Cancelled)) else s
    case Restart => if s.inboundOpen then End(s, Some(SecondStart)) else s
    case InboundError => if s.inboundOpen then End(s, Some(RequestFailed)) else s
    case InboundClosed => s.(inboundOpen := false)
    case FromShard(event) => OnShard(s, event)
    case AllClosed => End(s, Some(Shard(C.AllStreamsClosed)))
    case Deadline => End(s, Some(DeadlineExceeded))
    case Gone => s.(ended := true)
  }

  function React(s: Stream, e: Input): (t: Stream)
    requires Sized(s) && ForShards(e, |s.completed|)
    requires !s.ended ==> 0 < s.remaining
    ensures Sized(t) && |t.completed| == |s.completed| && (!t.ended ==> 0 < t.remaining)
  {
    if s.ended then s
    else
      var t := Turn(s, e);
      if t.ended then StopShards(t) else t
  }

  /** The stream has ended with a positive certificate. */
  ghost predicate Certified(s: Stream) {
    s.sent != [] && s.sent[|s.sent| - 1].Completion? && s.sent[|s.sent| - 1].completed
  }

  ghost predicate AllForShards(inputs: seq<Input>, shards: nat) {
    forall n :: 0 <= n < |inputs| ==> ForShards(inputs[n], shards)
  }

  /** The stream after its inputs so far. */
  ghost function Drive(shards: nat, floor: Option<Score>, inputs: seq<Input>): (t: Stream)
    requires 0 < shards && AllForShards(inputs, shards)
    ensures Sized(t) && |t.completed| == shards && (!t.ended ==> 0 < t.remaining)
  {
    if inputs == [] then Opening(shards, floor)
    else React(Drive(shards, floor, inputs[..|inputs| - 1]), inputs[|inputs| - 1])
  }

  lemma DriveNext(shards: nat, floor: Option<Score>, inputs: seq<Input>, n: nat)
    requires 0 < shards && AllForShards(inputs, shards) && n < |inputs|
    ensures AllForShards(inputs[..n], shards) && AllForShards(inputs[..n + 1], shards)
    ensures Drive(shards, floor, inputs[..n + 1]) == React(Drive(shards, floor, inputs[..n]), inputs[n])
  {
    assert inputs[..n + 1][..n] == inputs[..n];
  }

  // ---- What reaches the caller ----

  /** The records of a batch the loop accepts; none for any other input. */
  function Accepted(s: Stream, e: Input): seq<Record>
    requires ForShards(e, |s.completed|)
  {
    if s.ended || !e.FromShard? then [] else ShardRecords(s.completed, e.event)
  }

  function ShardRecords(completed: seq<bool>, e: C.Event): seq<Record>
    requires e.shard < |completed|
  {
    if ShardProblem(completed, e).Some? || e.Closed? || !e.payload.Candidates? then []
    else RecordsOf(e.payload.batch, |e.payload.batch.scores|)
  }

  ghost function AllAccepted(shards: nat, floor: Option<Score>, inputs: seq<Input>): seq<Record>
    requires 0 < shards && AllForShards(inputs, shards)
  {
    if inputs == [] then []
    else
      var init := inputs[..|inputs| - 1];
      AllAccepted(shards, floor, init) + Accepted(Drive(shards, floor, init), inputs[|inputs| - 1])
  }

  /** The candidate bytes of the messages sent, end to end. */
  function Payload(sent: seq<Message>): seq<byte> {
    if sent == [] then []
    else Payload(sent[..|sent| - 1]) + (if sent[|sent| - 1].Rows? then sent[|sent| - 1].candidates else [])
  }

  lemma PayloadNext(sent: seq<Message>, m: Message)
    ensures Payload(sent + [m]) == Payload(sent) + (if m.Rows? then m.candidates else [])
  {
    assert (sent + [m])[..|sent|] == sent;
  }

  /** Nothing is lost or repeated between the shards and the wire. */
  ghost predicate BytesInv(sent: seq<Message>, pending: seq<byte>, records: seq<Record>) {
    && Payload(sent) + pending == Encode(records)
    && |Payload(sent)| % 12 == 0 && |pending| % 12 == 0
    && forall m :: 0 <= m < |sent| && sent[m].Rows? ==>
         sent[m].candidates != [] && |sent[m].candidates| % 12 == 0
  }

  ghost predicate CountInv(s: Stream) {
    && s.emitted == Saturated(|Payload(s.sent)| / 12, U64)
    && s.remaining <= |s.completed|
    && s.shardsCompleted == Saturated(|s.completed| - s.remaining, U32)
  }

  /** At most one certificate, always last, and a positive one only with every
      shard certified and every record on the wire. */
  ghost predicate EndInv(s: Stream) {
    && (forall m :: 0 <= m < |s.sent| && s.sent[m].Completion? ==> m == |s.sent| - 1 && s.ended)
    && (s.sent != [] && s.sent[|s.sent| - 1].Completion? ==>
          var c := s.sent[|s.sent| - 1];
          && c.emitted == s.emitted && c.shardsCompleted == s.shardsCompleted
          && c.shardsTotal == Saturated(|s.completed|, U32)
          && (c.completed <==> c.problem.None?)
          && (c.completed ==> s.remaining == 0 && s.pending == []))
  }

  ghost predicate StreamInv(s: Stream, records: seq<Record>) {
    BytesInv(s.sent, s.pending, records) && CountInv(s) && EndInv(s)
  }

  lemma RecordsAdd(before: nat, more: nat)
    requires before % 12 == 0 && more % 12 == 0
    ensures (before + more) % 12 == 0
    ensures Saturated(Saturated(before / 12, U64) + more / 12, U64) == Saturated((before + more) / 12, U64)
  {
    assert before == 12 * (before / 12) && more == 12 * (more / 12);
    assert before + more == 12 * (before / 12 + more / 12);
  }

  lemma FlushKeeps(s: Stream, records: seq<Record>)
    requires StreamInv(s, records) && !s.ended
    ensures StreamInv(Flush(s), records) && Flush(s).pending == []
  {
    if s.pending != [] {
      PayloadNext(s.sent, Rows(s.pending));
      assert Payload(Flush(s).sent) == Payload(s.sent) + s.pending;
      RecordsAdd(|Payload(s.sent)|, |s.pending|);
    }
  }

  lemma EndKeeps(s: Stream, records: seq<Record>, problem: Option<Problem>)
    requires StreamInv(s, records) && !s.ended
    requires problem.None? ==> s.remaining == 0 && s.pending == []
    ensures StreamInv(End(s, problem), records)
  {
    PayloadNext(s.sent, Certificate(s, problem));
    assert Payload(End(s, problem).sent) == Payload(s.sent);
  }

  lemma StaysWhole(pending: seq<byte>, added: seq<Record>)
    requires |pending| % 12 == 0
    ensures |pending + Encode(added)| % 12 == 0
  {
  }

  lemma StaysEncoded(out: seq<byte>, pending: seq<byte>, records: seq<Record>, added: seq<Record>)
    requires out + pending == Encode(records)
    ensures out + (pending + Encode(added)) == Encode(records + added)
  {
    EncodeConcat(records, added);
    assert out + (pending + Encode(added)) == (out + pending) + Encode(added);
  }

  lemma PendingGrows(sent: seq<Message>, pending: seq<byte>, records: seq<Record>, added: seq<Record>)
    requires BytesInv(sent, pending, records)
    ensures BytesInv(sent, pending + Encode(added), records + added)
  {
    StaysEncoded(Payload(sent), pending, records, added);
    StaysWhole(pending, added);
  }

  lemma BufferKeeps(s: Stream, records: seq<Record>, added: seq<Record>)
    requires StreamInv(s, records) && !s.ended
    ensures StreamInv(Buffer(s, added), records + added)
  {
    PendingGrows(s.sent, s.pending, records, added);
    FlushKeeps(s.(pending := s.pending + Encode(added)), records + added);
  }

  lemma CertifyKeeps(s: Stream, records: seq<Record>, shard: nat)
    requires StreamInv(s, records) && !s.ended && shard < |s.completed| && 0 < s.remaining
    ensures StreamInv(Certify(s, shard), records)
  {
  }

  lemma ShardKeeps(s: Stream, records: seq<Record>, e: C.Event)
    requires StreamInv(s, records) && !s.ended && e.shard < |s.completed| && 0 < s.remaining
    ensures StreamInv(OnShard(s, e), records + ShardRecords(s.completed, e))
  {
    assert records + [] == records;
    if ShardProblem(s.completed, e).Some? {
      EndKeeps(s, records, ShardProblem(s.completed, e));
    } else if e.Message? && e.payload.Candidates? {
      BufferKeeps(s, records, ShardRecords(s.completed, e));
    } else if e.Message? {
      CertifyKeeps(s, records, e.shard);
      var t := Certify(s, e.shard);
      if t.remaining == 0 {
        FlushKeeps(t, records);
        EndKeeps(Flush(t), records, None);
      }
    }
  }

  lemma RequestKeeps(s: Stream, records: seq<Record>, e: Input)
    requires StreamInv(s, records) && !s.ended && Sized(s) && 0 < s.remaining && !e.FromShard?
    ensures StreamInv(Turn(s, e), records)
  {
    match e
    case Tick => FlushKeeps(s, records);
    case Floor(_) => EndKeeps(s, records, Some(NanFloor));
    case CallerStop => EndKeeps(s, records, Some(Cancelled));
    case Restart => EndKeeps(s, records, Some(SecondStart));
    case InboundError => EndKeeps(s, records, Some(RequestFailed));
    case AllClosed => EndKeeps(s, records, Some(Shard(C.AllStreamsClosed)));
    case Deadline => EndKeeps(s, records, Some(DeadlineExceeded));
    case _ =>
  }

  lemma TurnKeeps(s: Stream, records: seq<Record>, e: Input)
    requires StreamInv(s, records) && Sized(s) && ForShards(e, |s.completed|) && !s.ended && 0 < s.remaining
    ensures StreamInv(Turn(s, e), records + Accepted(s, e))
  {
    if e.FromShard? {
      ShardKeeps(s, records, e.event);
    } else {
      assert records + Accepted(s, e) == records;
      RequestKeeps(s, records, e);
    }
  }

  lemma StopKeeps(s: Stream, records: seq<Record>)
    requires StreamInv(s, records) && Sized(s)
    ensures StreamInv(StopShards(s), records)
  {
  }

  lemma ReactKeeps(s: Stream, records: seq<Record>, e: Input)
    requires StreamInv(s, records) && Sized(s) && ForShards(e, |s.completed|) && (!s.ended ==> 0 < s.remaining)
    ensures StreamInv(React(s, e), records + Accepted(s, e))
  {
    if s.ended {
      assert records + Accepted(s, e) == records;
    } else {
      TurnKeeps(s, records, e);
      StopKeeps(Turn(s, e), records + Accepted(s, e));
    }
  }

  lemma {:induction false} StreamsKeep(shards: nat, floor: Option<Score>, inputs: seq<Input>)
    requires 0 < shards && AllForShards(inputs, shards)
    ensures StreamInv(Drive(shards, floor, inputs), AllAccepted(shards, floor, inputs))
  {
    if inputs != [] {
      var init := inputs[..|inputs| - 1];
      StreamsKeep(shards, floor, init);
      ReactKeeps(Drive(shards, floor, init), AllAccepted(shards, floor, init), inputs[|inputs| - 1]);
    }
  }

  /** A positive certificate: the bytes sent decode to every record accepted
      from the shards, once and in order, and the counts are right. */
  lemma CompletionCertifies(shards: nat, floor: Option<Score>, inputs: seq<Input>)
    requires 0 < shards && AllForShards(inputs, shards)
    requires Certified(Drive(shards, floor, inputs))
    ensures var s := Drive(shards, floor, inputs);
            var records, last := AllAccepted(shards, floor, inputs), s.sent[|s.sent| - 1];
            && Decode(Payload(s.sent)) == records && s.remaining == 0
            && last.emitted == (if |records| < U64 then |records| else U64 - 1)
            && last.shardsTotal == last.shardsCompleted == if shards < 0x1_0000_0000 then shards else 0xFFFF_FFFF
  {
    StreamsKeep(shards, floor, inputs);
    CertificateCounts(Drive(shards, floor, inputs), AllAccepted(shards, floor, inputs));
  }

  lemma CertificateCounts(s: Stream, records: seq<Record>)
    requires StreamInv(s, records) && Certified(s)
    ensures var last := s.sent[|s.sent| - 1];
            && Decode(Payload(s.sent)) == records && s.remaining == 0
            && last.emitted == (if |records| < U64 then |records| else U64 - 1)
            && last.shardsTotal == last.shardsCompleted
            == if |s.completed| < 0x1_0000_0000 then |s.completed| else 0xFFFF_FFFF
  {
    assert Payload(s.sent) == Encode(records);
    DecodeEncode(records);
  }

  /** Every message sent carries whole records, and a certificate is the last
      message and the only one, whatever happens after. */
  lemma CertificateIsLast(shards: nat, floor: Option<Score>, inputs: seq<Input>, m: nat)
    requires 0 < shards && AllForShards(inputs, shards)
    requires m < |Drive(shards, floor, inputs).sent|
    ensures var sent := Drive(shards, floor, inputs).sent;
            match sent[m]
            case Completion(_, _, _, _, _) => m == |sent| - 1
            case Rows(bytes) => bytes != [] && |bytes| % 12 == 0
  {
    StreamsKeep(shards, floor, inputs);
  }

  // ---- The accepted floor ----

  /** Every floor the stream took while its request side was open. */
  ghost predicate Offered(shards: nat, floor: Option<Score>, inputs: seq<Input>, n: nat)
    requires 0 < shards && AllForShards(inputs, shards)
  {
    && n < |inputs| && inputs[n].Floor? && !IsNan(inputs[n].floor)
    && var s := Drive(shards, floor, inputs[..n]); !s.ended && s.inboundOpen
  }

  lemma FloorReacts(s: Stream, e: Input)
    requires Sized(s) && ForShards(e, |s.completed|) && (!s.ended ==> 0 < s.remaining)
    ensures Le(s.lastFloor, React(s, e).lastFloor)
    ensures !s.ended && s.inboundOpen && e.Floor? && !IsNan(e.floor) ==> Le(e.floor, React(s, e).lastFloor)
    ensures React(s, e).lastFloor != s.lastFloor ==>
              e.Floor? && !IsNan(e.floor) && !s.ended && s.inboundOpen && React(s, e).lastFloor == e.floor
  {
  }

  lemma OfferedInPrefix(shards: nat, floor: Option<Score>, inputs: seq<Input>, n: nat)
    requires 0 < shards && AllForShards(inputs, shards) && n + 1 < |inputs|
    ensures Offered(shards, floor, inputs, n) <==> Offered(shards, floor, inputs[..|inputs| - 1], n)
  {
    assert inputs[..|inputs| - 1][..n] == inputs[..n];
  }

  /** Some accepted floor is the one in force. */
  ghost predicate FromOffer(shards: nat, floor: Option<Score>, inputs: seq<Input>, f: Score)
    requires 0 < shards && AllForShards(inputs, shards)
  {
    exists n :: 0 <= n < |inputs| && Offered(shards, floor, inputs, n) && inputs[n].floor == f
  }

  lemma OfferStays(shards: nat, floor: Option<Score>, inputs: seq<Input>, f: Score)
    requires 0 < shards && AllForShards(inputs, shards) && inputs != []
    requires FromOffer(shards, floor, inputs[..|inputs| - 1], f)
    ensures FromOffer(shards, floor, inputs, f)
  {
    var init := inputs[..|inputs| - 1];
    var n :| 0 <= n < |init| && Offered(shards, floor, init, n) && init[n].floor == f;
    OfferedInPrefix(shards, floor, inputs, n);
  }

  /** The floor in force is the highest of the initial one and those offered. */
  lemma {:induction false} LastFloorIsHighest(shards: nat, floor: Option<Score>, inputs: seq<Input>)
    requires 0 < shards && AllForShards(inputs, shards)
    ensures var s := Drive(shards, floor, inputs);
            var initial := if floor.None? then NEG_INFINITY else floor.value;
            && Le(initial, s.lastFloor)
            && (forall n :: 0 <= n < |inputs| && Offered(shards, floor, inputs, n) ==> Le(inputs[n].floor, s.lastFloor))
            && (s.lastFloor != initial ==> FromOffer(shards, floor, inputs, s.lastFloor))
  {
    if inputs != [] {
      var last := |inputs| - 1;
      var init := inputs[..last];
      LastFloorIsHighest(shards, floor, init);
      FloorReacts(Drive(shards, floor, init), inputs[last]);
      OffersStayBelow(shards, floor, inputs);
      SomeOfferStays(shards, floor, inputs);
    }
  }

  lemma OffersStayBelow(shards: nat, floor: Option<Score>, inputs: seq<Input>)
    requires 0 < shards && AllForShards(inputs, shards) && inputs != []
    requires var init := inputs[..|inputs| - 1];
             forall n :: 0 <= n < |init| && Offered(shards, floor, init, n) ==>
               Le(init[n].floor, Drive(shards, floor, init).lastFloor)
    ensures forall n :: 0 <= n < |inputs| && Offered(shards, floor, inputs, n) ==>
              Le(inputs[n].floor, Drive(shards, floor, inputs).lastFloor)
  {
    var last := |inputs| - 1;
    var init, t := inputs[..last], Drive(shards, floor, inputs);
    FloorReacts(Drive(shards, floor, init), inputs[last]);
    forall n | 0 <= n < |inputs| && Offered(shards, floor, inputs, n) ensures Le(inputs[n].floor, t.lastFloor) {
      if n < last {
        OfferedInPrefix(shards, floor, inputs, n);
        assert Le(init[n].floor, Drive(shards, floor, init).lastFloor);
      }
    }
  }

  lemma SomeOfferStays(shards: nat, floor: Option<Score>, inputs: seq<Input>)
    requires 0 < shards && AllForShards(inputs, shards) && inputs != []
    ensures var init := inputs[..|inputs| - 1]; var s, t := Drive(shards, floor, init), Drive(shards, floor, inputs);
            && (t.lastFloor != s.lastFloor ==> FromOffer(shards, floor, inputs, t.lastFloor))
            && (FromOffer(shards, floor, init, s.lastFloor) ==> FromOffer(shards, floor, inputs, s.lastFloor))
  {
    var last := |inputs| - 1;
    var s, t := Drive(shards, floor, inputs[..last]), Drive(shards, floor, inputs);
    FloorReacts(s, inputs[last]);
    if t.lastFloor != s.lastFloor {
      assert Offered(shards, floor, inputs, last) && inputs[last].floor == t.lastFloor;
    }
    if FromOffer(shards, floor, inputs[..last], s.lastFloor) { OfferStays(shards, floor, inputs, s.lastFloor); }
  }

  // ---- The control cells ----

  /** What an uncertified shard's cell holds while the stream runs. */
  function CellFor(initial: Score, floor: Score): C.Control {
    if floor == initial then C.Start else C.FloorUpdate(floor)
  }

  ghost predicate CellsHold(s: Stream, c: C.Control)
    requires Sized(s)
  {
    forall i :: 0 <= i < |s.cells| && !s.completed[i] ==> s.cells[i] == c
  }

  /** Every uncertified shard can read the floor in force, or Start if none was
      accepted; once the stream has ended, however it ended, it reads Stop. */
  lemma {:induction false} CellsCarryTheFloor(shards: nat, floor: Option<Score>, inputs: seq<Input>)
    requires 0 < shards && AllForShards(inputs, shards)
    ensures var s := Drive(shards, floor, inputs);
            var initial := if floor.None? then NEG_INFINITY else floor.value;
            forall i :: 0 <= i < shards && !s.completed[i] ==>
              s.cells[i] == if s.ended then C.Stop
                            else if s.lastFloor == initial then C.Start else C.FloorUpdate(s.lastFloor)
  {
    if inputs != [] {
      var init := inputs[..|inputs| - 1];
      CellsCarryTheFloor(shards, floor, init);
      LastFloorIsHighest(shards, floor, init);
      var s := Drive(shards, floor, init);
      if !s.ended { CellsReact(s, Opening(shards, floor).lastFloor, inputs[|inputs| - 1]); }
    }
  }

  lemma CellsReact(s: Stream, initial: Score, e: Input)
    requires Sized(s) && ForShards(e, |s.completed|) && !s.ended && 0 < s.remaining
    requires Le(initial, s.lastFloor) && CellsHold(s, CellFor(initial, s.lastFloor))
    ensures var t := React(s, e); CellsHold(t, if t.ended then C.Stop else CellFor(initial, t.lastFloor))
  {
    match e
    case FromShard(event) => ShardLeavesCells(s, event);
    case _ =>
  }

  lemma ShardLeavesCells(s: Stream, e: C.Event)
    requires e.shard < |s.completed| && 0 < s.remaining
    ensures var t := OnShard(s, e);
            && t.cells == s.cells && t.lastFloor == s.lastFloor && |t.completed| == |s.completed|
            && forall i :: 0 <= i < |s.completed| && s.completed[i] ==> t.completed[i]
  {
  }
}
