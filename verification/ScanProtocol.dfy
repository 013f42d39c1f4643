/** The distributed scan as a state machine: every shard node, its one-cell
    control channel, its response queue and the coordinator, under every
    interleaving. */
module ScanProtocol {
  import opened Float32
  import opened TopK
  import opened Ranking
  import opened Collector

  /** A stored row as one query sees it: its score and whether the filter admits it. */
  datatype ScoredRow = ScoredRow(score: Score, rowLabel: nat, admitted: bool)

  datatype Shard = Shard(rows: seq<ScoredRow>, labelled: bool)

  type pos = n: nat | 0 < n witness 1

  /** What a deployment grants one query: the node that serves each shard, the
      scans each node runs at once, and how many messages a shard can have under
      way before the sender of the next one blocks. */
  datatype Limits = Limits(host: nat -> nat, slots: nat -> pos, capacity: nat)

  datatype Query = Query(shards: seq<Shard>, options: Options, limits: Limits)

  /** What `search` checks before it starts the scan. */
  ghost predicate Accepted(q: Query) {
    && 1 <= q.options.k
    && q.shards != []
    && (q.options.stableLabelOrder ==> forall i :: 0 <= i < |q.shards| ==> q.shards[i].labelled)
  }

  predicate HasRow(q: Query, i: nat, j: nat) {
    i < |q.shards| && j < |q.shards[i].rows|
  }

  function CandidateAt(q: Query, i: nat, j: nat): HeapCandidate
    requires HasRow(q, i, j)
  {
    var row := q.shards[i].rows[j];
    HeapCandidate(row.score, i, j,
                  if q.shards[i].labelled then Some(row.rowLabel) else None,
                  if q.options.stableLabelOrder then Some(row.rowLabel) else None)
  }

  /** Admitted by the filter and at or above the caller's floor. */
  predicate Eligible(q: Query, i: nat, j: nat)
    requires HasRow(q, i, j)
  {
    && q.shards[i].rows[j].admitted
    && (q.options.initialFloor.None? || Le(q.options.initialFloor.value, q.shards[i].rows[j].score))
  }

  ghost predicate IsEligible(q: Query, c: HeapCandidate) {
    HasRow(q, c.shardRank, c.slot) && Eligible(q, c.shardRank, c.slot) && c == CandidateAt(q, c.shardRank, c.slot)
  }

  /** The eligible rows of the first `i` shards and of the first `j` rows of
      shard `i`, in table order. */
  ghost function EligibleRows(q: Query, i: nat, j: nat): seq<HeapCandidate>
    requires i <= |q.shards| && (i == |q.shards| ==> j == 0) && (i < |q.shards| ==> j <= |q.shards[i].rows|)
    decreases i, j
  {
    if j > 0 then
      EligibleRows(q, i, j - 1) + (if Eligible(q, i, j - 1) then [CandidateAt(q, i, j - 1)] else [])
    else if i > 0 then EligibleRows(q, i - 1, |q.shards[i - 1].rows|)
    else []
  }

  /** Every row the collection owes the query. */
  ghost function AllEligible(q: Query): set<HeapCandidate> {
    Elements(EligibleRows(q, |q.shards|, 0))
  }

  lemma EligibleDistinguishable(q: Query, s: set<HeapCandidate>)
    requires forall c :: c in s ==> IsEligible(q, c)
    ensures Distinguishable(Before, s)
  {
    forall a, b | a in s && b in s && a != b ensures Before(a, b) || Before(b, a) {
      assert IsEligible(q, a) && IsEligible(q, b);
      BeforeIsStrictOrder(a, b, a);
    }
  }

  // ---- State ----

  /** One shard's scan. `cell` and `unread` are the watch channel and `flight`
      the request stream it feeds; `floorCell` is the atomic the pump raises,
      `floorNow` the floor the scan runs at. The last message of `queue` may be
      one its sender still holds. */
  datatype Node = Node(
    started: bool, cell: Control, unread: bool, flight: seq<Control>, floorCell: Score, floorNow: Score,
    stop: bool, pos: nat, ended: bool, queue: seq<Payload>)

  datatype Phase = Running | Returned(answer: seq<HeapCandidate>) | Failed

  /** `seen` and `history` record what has been delivered; no step reads them. */
  datatype System = System(
    nodes: seq<Node>, streams: nat, collector: State, phase: Phase,
    seen: set<HeapCandidate>, history: seq<Event>)

  function Init(q: Query): System {
    var floor := q.options.StartFloor();
    System(seq(|q.shards|, _ => Node(false, Start, true, [], floor, floor, false, 0, false, [])), 0,
           InitialState(q.options, |q.shards|), Running, {}, [])
  }

  // ---- Steps ----

  datatype Step =
    | Open
    | Send(i: nat)
    | Pump(i: nat)
    | Scan(i: nat, count: nat, order: seq<nat>)
    | Certify(i: nat)
    | Halt(i: nat)
    | Take(i: nat)
    | Abort

  /** `raise_floor`. */
  function Raised(current: Score, candidate: Score): Score {
    if Le(candidate, current) then current else candidate
  }

  /** The floor poll at a chunk boundary. */
  function Polled(nd: Node): Score {
    if Lt(nd.floorNow, nd.floorCell) then nd.floorCell else nd.floorNow
  }

  /** A chunk scan emits exactly the admitted rows at or above the floor in
      effect, in any order. */
  ghost predicate EmitsChunk(shard: Shard, lo: nat, hi: nat, floor: Score, order: seq<nat>) {
    && hi <= |shard.rows| && NoDuplicates(order)
    && forall j :: j in order <==> lo <= j < hi && shard.rows[j].admitted && Le(floor, shard.rows[j].score)
  }

  function BatchOf(shard: Shard, slots: seq<nat>): Batch
    requires forall j :: 0 <= j < |slots| ==> slots[j] < |shard.rows|
  {
    Batch(seq(|slots|, j requires 0 <= j < |slots| => shard.rows[slots[j]].score as Bits),
          slots,
          if shard.labelled then seq(|slots|, j requires 0 <= j < |slots| => shard.rows[slots[j]].rowLabel) else [])
  }

  /** The marked shards on node `h`, among the first `n`. */
  function CountOn(host: nat -> nat, marked: seq<bool>, h: nat, n: nat): nat
    requires n <= |marked|
  {
    if n == 0 then 0 else CountOn(host, marked, h, n - 1) + (if host(n - 1) == h && marked[n - 1] then 1 else 0)
  }

  /** It is how many there are. */
  lemma {:induction false} CountIsCardinality(host: nat -> nat, marked: seq<bool>, h: nat, n: nat)
    requires n <= |marked|
    ensures CountOn(host, marked, h, n) == |set i: nat | i < n && host(i) == h && marked[i]|
  {
    var all := set i: nat | i < n && host(i) == h && marked[i];
    if n == 0 {
      assert all == {};
    } else {
      CountIsCardinality(host, marked, h, n - 1);
      var rest := set i: nat | i < n - 1 && host(i) == h && marked[i];
      if host(n - 1) == h && marked[n - 1] { assert all == rest + {n - 1}; } else { assert all == rest; }
    }
  }

  /** Which scans hold a slot of their node. */
  function Holding(nodes: seq<Node>): seq<bool> {
    seq(|nodes|, i requires 0 <= i < |nodes| => nodes[i].started && !nodes[i].ended)
  }

  /** A stream opens only once its node has admitted the scan. */
  predicate SlotFree(q: Query, nodes: seq<Node>, i: nat)
    requires i <= |nodes|
  {
    CountOn(q.limits.host, Holding(nodes), q.limits.host(i), i) < q.limits.slots(q.limits.host(i))
  }

  /** The scan is not waiting for room to send its last batch. */
  predicate Unblocked(q: Query, nd: Node) {
    |nd.queue| <= q.limits.capacity
  }

  ghost predicate Shaped(q: Query, s: System) {
    |s.nodes| == |q.shards| == |s.collector.completed| && s.streams <= |s.nodes|
  }

  ghost predicate Enabled(q: Query, s: System, step: Step)
    requires Accepted(q) && Shaped(q, s)
  {
    match step
    case Open => s.phase == Running && s.streams < |s.nodes| && SlotFree(q, s.nodes, s.streams)
    case Send(i) => i < |s.nodes| && s.nodes[i].started && s.nodes[i].unread
    case Pump(i) => i < |s.nodes| && s.nodes[i].started && s.nodes[i].flight != []
    case Scan(i, count, order) =>
      && i < |s.nodes| && s.nodes[i].started && !s.nodes[i].stop && !s.nodes[i].ended
      && 1 <= count && Unblocked(q, s.nodes[i])
      && EmitsChunk(q.shards[i], s.nodes[i].pos, s.nodes[i].pos + count, Polled(s.nodes[i]), order)
    case Certify(i) =>
      && i < |s.nodes| && s.nodes[i].started && !s.nodes[i].ended && s.nodes[i].pos == |q.shards[i].rows|
      && Unblocked(q, s.nodes[i])
    case Halt(i) => i < |s.nodes| && s.nodes[i].started && !s.nodes[i].ended
    case Take(i) =>
      && s.phase == Running && s.streams == |s.nodes| && 0 < s.collector.remaining
      && i < |s.nodes| && s.nodes[i].queue != []
    case Abort => s.phase == Running
  }

  ghost function Apply(q: Query, s: System, step: Step): System
    requires Accepted(q) && Shaped(q, s) && Enabled(q, s, step)
  {
    match step
    case Open =>
      // A node answers the request only after reading its first message.
      var nd := s.nodes[s.streams];
      if nd.cell == Start then
        s.(nodes := s.nodes[s.streams := nd.(started := true, unread := false)], streams := s.streams + 1)
      else s.(phase := Failed)
    case Send(i) =>
      // The request stream takes the cell's value; later ones overtake none.
      var nd := s.nodes[i];
      s.(nodes := s.nodes[i := nd.(flight := nd.flight + [nd.cell], unread := false)])
    case Pump(i) =>
      var nd := s.nodes[i].(flight := s.nodes[i].flight[1..]);
      s.(nodes := s.nodes[i := match s.nodes[i].flight[0]
                               case FloorUpdate(f) => nd.(floorCell := Raised(nd.floorCell, f))
                               case _ => nd.(stop := true)])
    case Scan(i, count, order) =>
      assert forall j :: 0 <= j < |order| ==> order[j] in order;
      var nd := s.nodes[i];
      var emitted := if order == [] then [] else [Candidates(BatchOf(q.shards[i], order))];
      s.(nodes := s.nodes[i := nd.(floorNow := Polled(nd), pos := nd.pos + count, queue := nd.queue + emitted)])
    case Certify(i) =>
      // The scan's slot is free from here on; its summary may still be held.
      s.(nodes := s.nodes[i := s.nodes[i].(ended := true, queue := s.nodes[i].queue + [Summary(true)])])
    case Halt(i) =>
      s.(nodes := s.nodes[i := s.nodes[i].(ended := true, queue := s.nodes[i].queue + [Summary(false)])])
    case Take(i) =>
      var message := s.nodes[i].queue[0];
      var popped := s.nodes[i := s.nodes[i].(queue := s.nodes[i].queue[1..])];
      (match Handle(q.options, s.collector, Message(i, message))
       case Fail(_) => s.(nodes := popped, phase := Failed)
       case Continue(next, raised) =>
         System(if raised then Publish(popped, s.collector.completed, next.published) else popped,
                s.streams, next,
                if next.remaining == 0 then Returned(Finish(q.options, next)) else Running,
                s.seen + Delivered(q.options, i, message),
                s.history + [Message(i, message)]))
    case Abort => s.(phase := Failed)
  }

  function Publish(nodes: seq<Node>, completed: seq<bool>, floor: Score): seq<Node>
    requires |nodes| == |completed|
  {
    seq(|nodes|, i requires 0 <= i < |nodes| =>
      if completed[i] then nodes[i] else nodes[i].(cell := FloorUpdate(floor), unread := true))
  }

  function Cells(nodes: seq<Node>): seq<Control> {
    seq(|nodes|, i requires 0 <= i < |nodes| => nodes[i].cell)
  }

  /** The machine's publication is the loop's broadcast. */
  lemma PublishIsBroadcast(nodes: seq<Node>, completed: seq<bool>, floor: Score)
    requires |nodes| == |completed|
    ensures Cells(Publish(nodes, completed, floor)) == Broadcast(Cells(nodes), completed, FloorUpdate(floor))
    ensures forall i :: 0 <= i < |nodes| ==> Publish(nodes, completed, floor)[i].queue == nodes[i].queue
  {
  }

  ghost function Delivered(o: Options, i: nat, message: Payload): set<HeapCandidate> {
    if message.Candidates? && Rankable(o, message.batch) && NanFree(message.batch, |message.batch.scores|)
    then Elements(ToCandidates(o, i, message.batch, |message.batch.scores|)) else {}
  }

  ghost predicate Next(q: Query, s: System, t: System)
    requires Accepted(q)
  {
    Shaped(q, s) && exists step :: Enabled(q, s, step) && t == Apply(q, s, step)
  }

  /** Step `n` of the run is one the machine can take. */
  ghost predicate NextAt(q: Query, run: seq<System>, n: nat)
    requires Accepted(q) && n + 1 < |run|
  {
    Next(q, run[n], run[n + 1])
  }

  ghost predicate IsRun(q: Query, run: seq<System>)
    requires Accepted(q)
  {
    && run != [] && run[0] == Init(q)
    && forall n: nat :: n + 1 < |run| ==> NextAt(q, run, n)
  }
}
