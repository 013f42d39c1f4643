/** Retry-safe ingest and requests that are dropped: when does an operation's
    row occur at most once, where it was declared? */
module IngestOnce {
  import opened Ranking
  import opened Rows
  import opened Store
  import opened StoreRuns
  import opened StoreContents
  import opened StoreTheorems

  // ---- Runs in which nothing is added twice or out of place ----

  /** Every tagged row sits where its operation declared it. */
  ghost predicate Placed(rows: seq<Vector>) {
    forall i :: 0 <= i < |rows| && rows[i].origin.Some? ==>
      i == rows[i].origin.value.meta.expectedLen + rows[i].origin.value.offset
  }

  /** Rows that have passed the check and are still to be added, by the request
      that holds the lock or by one that was dropped. */
  ghost function Pending(w: World): seq<Chunk> {
    w.late + if w.add.Checked? then [Chunk(w.add.declared, w.add.vectors)] else []
  }

  /** No declared rows wait together with any others. */
  ghost predicate Apart(chunks: seq<Chunk>) {
    forall i, j :: 0 <= i < j < |chunks| && chunks[i].vectors != [] && chunks[j].vectors != [] ==>
      chunks[i].declared.None? && chunks[j].declared.None?
  }

  /** Declared rows that wait were declared for the end of the index. */
  ghost predicate Due(chunks: seq<Chunk>, end: nat) {
    forall i :: 0 <= i < |chunks| && chunks[i].vectors != [] && chunks[i].declared.Some? ==>
      chunks[i].declared.value.expectedLen == end
  }

  ghost predicate PlacedInv(w: World) {
    && Placed(Durable(w.disk))
    && (w.memory.Some? ==> Placed(w.memory.value.index) && Due(Pending(w), |w.memory.value.index|))
  }

  lemma TakeOut(chunks: seq<Chunk>, at: nat, end: nat)
    requires at < |chunks| && Apart(chunks) && Due(chunks, end)
    ensures Due(Without(chunks, at), end + |chunks[at].vectors|)
  {
    var rest := Without(chunks, at);
    forall i | 0 <= i < |rest| && rest[i].vectors != [] && rest[i].declared.Some?
      ensures rest[i].declared.value.expectedLen == end + |chunks[at].vectors|
    {
      var k := if i < at then i else i + 1;
      assert rest[i] == chunks[k];
    }
  }

  lemma AppendPlaced(m: Memory, c: Chunk)
    requires Placed(m.index) && ChunkSound(m, c) && Due([c], |m.index|)
    ensures Placed(Landed(m, c).index)
  {
    assert [c][0] == c;
  }

  /** A chunk that waits is added. */
  lemma PendingLands(w: World, t: World, at: nat)
    requires Inv(w) && PlacedInv(w) && Apart(Pending(w)) && w.memory.Some? && at < |Pending(w)|
    requires t.memory == Some(Landed(w.memory.value, Pending(w)[at])) && t.disk == w.disk
    requires Pending(t) == Without(Pending(w), at)
    ensures PlacedInv(t)
  {
    var m, c := w.memory.value, Pending(w)[at];
    assert at < |w.late| ==> c == w.late[at];
    AppendPlaced(m, c);
    TakeOut(Pending(w), at, |m.index|);
  }

  lemma PrefixPlaced(a: seq<Vector>, b: seq<Vector>)
    requires a <= b && Placed(b)
    ensures Placed(a)
  {
    assert forall i :: 0 <= i < |a| ==> a[i] == b[i];
  }

  lemma FileStepKeepsPlaced(w: World)
    requires Inv(w) && PlacedInv(w) && Enabled(w, FileStep)
    ensures PlacedInv(Apply(w, FileStep))
  {
    var t := Apply(w, FileStep);
    FileStepKeeps(w);
    AdvanceKeeps(w.disk, w.memory.value, w.op.p);
    PrefixPlaced(Durable(t.disk), t.memory.value.index);
    assert Pending(t) == Pending(w);
  }

  lemma AdmitKeepsPlaced(w: World, meta: Option<Meta>, vectors: seq<nat>)
    requires Inv(w) && PlacedInv(w) && Enabled(w, AddStart(meta, vectors))
    ensures PlacedInv(Apply(w, AddStart(meta, vectors)))
  {
    var t := Apply(w, AddStart(meta, vectors));
    assert Pending(t) == Pending(w) || Pending(t) == Pending(w) + [Chunk(meta, vectors)];
  }

  lemma AddRowsPlaced(w: World)
    requires Inv(w) && PlacedInv(w) && Apart(Pending(w)) && Enabled(w, AddRows)
    ensures PlacedInv(Apply(w, AddRows))
  {
    var t := Apply(w, AddRows);
    assert Pending(t) == Without(Pending(w), |w.late|);
    PendingLands(w, t, |w.late|);
  }

  lemma LandPlaced(w: World, at: nat)
    requires Inv(w) && PlacedInv(w) && Apart(Pending(w)) && Enabled(w, Land(at))
    ensures PlacedInv(Apply(w, Land(at)))
  {
    var t := Apply(w, Land(at));
    assert Pending(t) == Without(Pending(w), at);
    PendingLands(w, t, at);
  }

  lemma StepKeepsPlaced(w: World, step: Step)
    requires Inv(w) && PlacedInv(w) && Apart(Pending(w)) && Enabled(w, step)
    ensures PlacedInv(Apply(w, step))
  {
    var t := Apply(w, step);
    match step {
      case AddStart(meta, vectors) => AdmitKeepsPlaced(w, meta, vectors);
      case AddRows => AddRowsPlaced(w);
      case Land(at) => LandPlaced(w, at);
      case FileStep => FileStepKeepsPlaced(w);
      case Sweep(generation, left) => SweepKeeps(w, generation, left);
      case Restart => RestartKeeps(w);
      case _ => assert t.memory.Some? ==> Pending(t) == Pending(w) || Pending(t) == [];
    }
  }

  lemma NextKeepsPlaced(run: seq<World>, n: nat)
    requires IsRun(run) && n + 1 < |run| && PlacedInv(run[n]) && Apart(Pending(run[n]))
    ensures PlacedInv(run[n + 1])
  {
    RunKeepsInv(run, n);
    var step := StepTaken(run, n);
    StepKeepsPlaced(run[n], step);
  }

  ghost predicate PlacedOn(w: World, t: World) {
    PlacedInv(w) ==> PlacedInv(t)
  }

  lemma {:induction false} PlacedAlong(worlds: seq<World>)
    requires worlds != [] && forall i :: 0 <= i < |worlds| - 1 ==> PlacedOn(worlds[i], worlds[i + 1])
    ensures PlacedOn(worlds[0], worlds[|worlds| - 1])
  {
    if 1 < |worlds| {
      PlacedAlong(worlds[..|worlds| - 1]);
      assert PlacedOn(worlds[|worlds| - 2], worlds[|worlds| - 1]);
    }
  }

  lemma RunKeepsPlaced(run: seq<World>, n: nat)
    requires IsRun(run) && n < |run| && forall i :: 0 <= i < n ==> Apart(Pending(run[i]))
    ensures PlacedInv(run[n])
  {
    forall i | 0 <= i < n ensures PlacedOn(run[i], run[i + 1]) {
      if PlacedInv(run[i]) { NextKeepsPlaced(run, i); }
    }
    PlacedAlong(run[..n + 1]);
  }

  /** While no declared rows wait together with others, no row of an operation
      occurs twice, in memory or on disk, and each sits where it was declared. */
  lemma RowsAtMostOnce(run: seq<World>, n: nat, rows: seq<Vector>, i: nat, j: nat)
    requires IsRun(run) && n < |run| && forall x :: 0 <= x < n ==> Apart(Pending(run[x]))
    requires rows == Durable(run[n].disk) || (run[n].memory.Some? && rows == run[n].memory.value.index)
    requires i < |rows| && j < |rows| && rows[i].origin.Some? && rows[i].origin == rows[j].origin
    ensures i == j && i == rows[i].origin.value.meta.expectedLen + rows[i].origin.value.offset
  {
    RunKeepsPlaced(run, n);
    assert Placed(rows);
  }

  // ---- The exact condition for one operation ----

  /** Nothing that waits would add a row. */
  ghost predicate Quiet(late: seq<Chunk>) {
    forall i :: 0 <= i < |late| ==> late[i].vectors == []
  }

  /** The operation's rows are all there, once each, where it declared them, and
      hold the vectors that were sent, in order. */
  ghost predicate OnceInPlace(rows: seq<Vector>, meta: Meta, vectors: seq<nat>) {
    && Holds(rows, meta) && SpellsAt(rows, meta.expectedLen, vectors)
    && forall i :: 0 <= i < |rows| && rows[i].origin.Some? && rows[i].origin.value.meta == meta ==>
         i == meta.expectedLen + rows[i].origin.value.offset
  }

  /** `run` ends with the operation checked and its rows on their way. */
  ghost predicate Waits(run: seq<World>, meta: Meta, vectors: seq<nat>) {
    IsRun(run) && run[|run| - 1].add == Checked(Some(meta), vectors) && vectors != []
  }

  /** A continuation in which the request is not dropped before its rows are in. */
  ghost predicate Appends(run: seq<World>, next: seq<World>, meta: Meta, vectors: seq<nat>) {
    && IsRun(run) && IsRun(next) && run <= next && |run| < |next|
    && (forall i :: |run| - 1 <= i < |next| - 1 ==> next[i].add == Checked(Some(meta), vectors))
    && next[|next| - 1].add == Added(meta)
  }

  /** Nothing was added since the check, and nothing will be. */
  ghost predicate Alone(w: World, meta: Meta) {
    w.memory.Some? && |w.memory.value.index| == meta.expectedLen && Quiet(w.late)
  }

  lemma {:induction false} AloneStays(run: seq<World>, next: seq<World>, meta: Meta, vectors: seq<nat>, n: nat)
    requires Waits(run, meta, vectors) && Appends(run, next, meta, vectors)
    requires Alone(run[|run| - 1], meta) && |run| - 1 <= n < |next| - 1
    ensures Alone(next[n], meta)
  {
    if n == |run| - 1 {
      assert next[n] == run[n];
    } else {
      AloneStays(run, next, meta, vectors, n - 1);
      WaitsOn(next, n - 1, meta);
    }
  }

  lemma WaitsOn(run: seq<World>, n: nat, meta: Meta)
    requires IsRun(run) && n + 1 < |run| && Alone(run[n], meta)
    requires run[n].add.Checked? && run[n + 1].add == run[n].add
    ensures Alone(run[n + 1], meta)
  {
    RunKeepsInv(run, n);
    var step := StepTaken(run, n);
    assert step.Land? ==> run[n].late[step.at].vectors == [];
  }

  /** Only its own append takes a checked add further. */
  lemma AppendTaken(run: seq<World>, n: nat, meta: Meta, vectors: seq<nat>)
    requires IsRun(run) && n + 1 < |run|
    requires run[n].add == Checked(Some(meta), vectors) && run[n + 1].add == Added(meta)
    ensures run[n].memory.Some? && run[n + 1] == Apply(run[n], AddRows)
  {
    var step := StepTaken(run, n);
    assert step == AddRows;
  }

  lemma AppendedAlone(w: World, meta: Meta, vectors: seq<nat>)
    requires Inv(w) && w.add == Checked(Some(meta), vectors) && Alone(w, meta)
    ensures OnceInPlace(Apply(w, AddRows).memory.value.index, meta, vectors)
    ensures var rows := Apply(w, AddRows).memory.value.index;
            |rows| == meta.expectedLen + |vectors| && Contents(rows)[meta.expectedLen..] == vectors
  {
    var m, c := w.memory.value, Chunk(Some(meta), vectors);
    assert ChunkSound(m, c);
    LandedContents(m, c);
    assert Apply(w, AddRows).memory.value.index == Landed(m, c).index;
    assert (Contents(m.index) + vectors)[meta.expectedLen..] == vectors;
  }

  /** Rows added after something else are not where they were declared. */
  lemma AppendedLate(w: World, meta: Meta, vectors: seq<nat>)
    requires Inv(w) && w.add == Checked(Some(meta), vectors) && vectors != []
    requires w.memory.Some? && |w.memory.value.index| != meta.expectedLen
    ensures !OnceInPlace(Apply(w, AddRows).memory.value.index, meta, vectors)
  {
    var rows := w.memory.value.index;
    assert Apply(w, AddRows).memory.value.index[|rows|].origin == Some(Origin(meta, 0));
  }

  lemma LandsAlone(run: seq<World>, next: seq<World>, meta: Meta, vectors: seq<nat>)
    requires Waits(run, meta, vectors) && Appends(run, next, meta, vectors) && Alone(run[|run| - 1], meta)
    ensures next[|next| - 1].memory.Some? && OnceInPlace(next[|next| - 1].memory.value.index, meta, vectors)
    ensures var rows := next[|next| - 1].memory.value.index;
            |rows| == meta.expectedLen + |vectors| && Contents(rows)[meta.expectedLen..] == vectors
  {
    var n := |next| - 2;
    AloneStays(run, next, meta, vectors, n);
    RunKeepsInv(next, n);
    AppendTaken(next, n, meta, vectors);
    AppendedAlone(next[n], meta, vectors);
  }

  /** A checked operation ends up in the index once and where it was declared,
      however things go on, exactly when nothing was added since its check and no
      rows of a dropped request are still to come. */
  lemma RowsLandWhereDeclaredIff(run: seq<World>, meta: Meta, vectors: seq<nat>)
    requires Waits(run, meta, vectors)
    ensures Alone(run[|run| - 1], meta) <==>
              forall next: seq<World> :: Appends(run, next, meta, vectors) ==>
                next[|next| - 1].memory.Some? && OnceInPlace(next[|next| - 1].memory.value.index, meta, vectors)
    ensures Alone(run[|run| - 1], meta) ==>
              forall next: seq<World> :: Appends(run, next, meta, vectors) ==>
                var rows := next[|next| - 1].memory.value.index;
                |rows| == meta.expectedLen + |vectors| && Contents(rows)[meta.expectedLen..] == vectors
  {
    if Alone(run[|run| - 1], meta) {
      forall next: seq<World> | Appends(run, next, meta, vectors)
        ensures next[|next| - 1].memory.Some? && OnceInPlace(next[|next| - 1].memory.value.index, meta, vectors)
        ensures var rows := next[|next| - 1].memory.value.index;
                |rows| == meta.expectedLen + |vectors| && Contents(rows)[meta.expectedLen..] == vectors
      {
        LandsAlone(run, next, meta, vectors);
      }
    } else {
      var next := SomeDisplaced(run, meta, vectors);
    }
  }

  lemma AddNow(run: seq<World>, meta: Meta, vectors: seq<nat>) returns (next: seq<World>)
    requires Waits(run, meta, vectors)
    ensures Appends(run, next, meta, vectors) && run[|run| - 1].memory.Some?
    ensures next[|next| - 1] == Apply(run[|run| - 1], AddRows)
  {
    RunKeepsInv(run, |run| - 1);
    next := Extend(run, AddRows);
  }

  lemma LandFirst(run: seq<World>, meta: Meta, vectors: seq<nat>, at: nat) returns (next: seq<World>)
    requires Waits(run, meta, vectors) && run[|run| - 1].memory.Some? && at < |run[|run| - 1].late|
    ensures var landed := Apply(run[|run| - 1], Land(at));
            && Appends(run, next, meta, vectors) && Inv(landed) && next[|next| - 1] == Apply(landed, AddRows)
  {
    var landed := Extend(run, Land(at));
    RunKeepsInv(landed, |run|);
    next := AddNow(landed, meta, vectors);
    assert forall i :: 0 <= i < |landed| ==> next[i] == landed[i];
  }

  /** Let a late chunk land first, if none has. */
  lemma SomeDisplaced(run: seq<World>, meta: Meta, vectors: seq<nat>) returns (next: seq<World>)
    requires Waits(run, meta, vectors) && !Alone(run[|run| - 1], meta)
    ensures Appends(run, next, meta, vectors)
    ensures next[|next| - 1].memory.Some? && !OnceInPlace(next[|next| - 1].memory.value.index, meta, vectors)
  {
    var w := run[|run| - 1];
    RunKeepsInv(run, |run| - 1);
    if |w.memory.value.index| != meta.expectedLen {
      AppendedLate(w, meta, vectors);
      next := AddNow(run, meta, vectors);
    } else {
      var at :| 0 <= at < |w.late| && w.late[at].vectors != [];
      next := LandFirst(run, meta, vectors, at);
      AppendedLate(Apply(w, Land(at)), meta, vectors);
    }
  }

  // ---- And for doubling ----

  /** Rows of the same operation, from a dropped request, are still to come. */
  ghost predicate SentBefore(late: seq<Chunk>, meta: Meta) {
    exists i :: 0 <= i < |late| && late[i].declared == Some(meta) && late[i].vectors != []
  }

  ghost predicate Mentions(rows: seq<Vector>, meta: Meta) {
    exists i :: 0 <= i < |rows| && rows[i].origin.Some? && rows[i].origin.value.meta == meta
  }

  ghost predicate Doubled(rows: seq<Vector>, meta: Meta) {
    exists i, j :: 0 <= i < j < |rows| && rows[i].origin.Some? && rows[i].origin.value.meta == meta
                   && rows[i].origin == rows[j].origin
  }

  /** No row of the operation is in the index or on its way from a dropped request. */
  ghost predicate Fresh(w: World, meta: Meta) {
    w.memory.Some? && !Mentions(w.memory.value.index, meta) && !SentBefore(w.late, meta)
  }

  lemma FreshOn(run: seq<World>, n: nat, meta: Meta)
    requires IsRun(run) && n + 1 < |run| && Fresh(run[n], meta)
    requires run[n].add.Checked? && run[n + 1].add == run[n].add
    ensures Fresh(run[n + 1], meta)
  {
    RunKeepsInv(run, n);
    var step := StepTaken(run, n);
    if step.Land? { assert run[n].late[step.at].declared == Some(meta) ==> run[n].late[step.at].vectors == []; }
  }

  lemma {:induction false} FreshStays(run: seq<World>, next: seq<World>, meta: Meta, vectors: seq<nat>, n: nat)
    requires Waits(run, meta, vectors) && Appends(run, next, meta, vectors)
    requires Fresh(run[|run| - 1], meta) && |run| - 1 <= n < |next| - 1
    ensures Fresh(next[n], meta)
  {
    if n == |run| - 1 {
      assert next[n] == run[n];
    } else {
      FreshStays(run, next, meta, vectors, n - 1);
      FreshOn(next, n - 1, meta);
    }
  }

  lemma AppendedFresh(w: World, meta: Meta, vectors: seq<nat>)
    requires Inv(w) && w.add == Checked(Some(meta), vectors) && Fresh(w, meta)
    ensures !Doubled(Apply(w, AddRows).memory.value.index, meta)
  {
  }

  /** A checked operation can end up in the index twice exactly when rows of an
      earlier request for it are there already or still to come. */
  lemma RowsDoubleIff(run: seq<World>, meta: Meta, vectors: seq<nat>)
    requires Waits(run, meta, vectors)
    ensures Fresh(run[|run| - 1], meta) <==>
              forall next: seq<World> :: Appends(run, next, meta, vectors) ==>
                next[|next| - 1].memory.Some? && !Doubled(next[|next| - 1].memory.value.index, meta)
  {
    if Fresh(run[|run| - 1], meta) {
      forall next: seq<World> | Appends(run, next, meta, vectors)
        ensures next[|next| - 1].memory.Some? && !Doubled(next[|next| - 1].memory.value.index, meta)
      {
        var n := |next| - 2;
        FreshStays(run, next, meta, vectors, n);
        RunKeepsInv(next, n);
        AppendTaken(next, n, meta, vectors);
        AppendedFresh(next[n], meta, vectors);
      }
    } else {
      var next := SomeDoubled(run, meta, vectors);
    }
  }

  lemma AppendedAgain(w: World, meta: Meta, vectors: seq<nat>)
    requires Inv(w) && w.add == Checked(Some(meta), vectors) && vectors != []
    requires w.memory.Some? && Mentions(w.memory.value.index, meta)
    ensures Doubled(Apply(w, AddRows).memory.value.index, meta)
  {
    var rows, after := w.memory.value.index, Apply(w, AddRows).memory.value.index;
    var i :| 0 <= i < |rows| && rows[i].origin.Some? && rows[i].origin.value.meta == meta;
    var j := |rows| + rows[i].origin.value.offset;
    assert after[i] == rows[i] && after[j].origin == rows[i].origin;
  }

  lemma LandedMentions(m: Memory, c: Chunk, meta: Meta)
    requires c.declared == Some(meta) && c.vectors != []
    ensures Mentions(Landed(m, c).index, meta)
  {
    assert Landed(m, c).index[|m.index|].origin == Some(Origin(meta, 0));
  }

  lemma LateDoubles(run: seq<World>, meta: Meta, vectors: seq<nat>, at: nat) returns (next: seq<World>)
    requires Waits(run, meta, vectors) && run[|run| - 1].memory.Some? && at < |run[|run| - 1].late|
    requires run[|run| - 1].late[at].declared == Some(meta) && run[|run| - 1].late[at].vectors != []
    ensures Appends(run, next, meta, vectors)
    ensures next[|next| - 1].memory.Some? && Doubled(next[|next| - 1].memory.value.index, meta)
  {
    var w := run[|run| - 1];
    next := LandFirst(run, meta, vectors, at);
    LandedMentions(w.memory.value, w.late[at], meta);
    AppendedAgain(Apply(w, Land(at)), meta, vectors);
  }

  lemma SomeDoubled(run: seq<World>, meta: Meta, vectors: seq<nat>) returns (next: seq<World>)
    requires Waits(run, meta, vectors) && !Fresh(run[|run| - 1], meta)
    ensures Appends(run, next, meta, vectors)
    ensures next[|next| - 1].memory.Some? && Doubled(next[|next| - 1].memory.value.index, meta)
  {
    var w := run[|run| - 1];
    RunKeepsInv(run, |run| - 1);
    if Mentions(w.memory.value.index, meta) {
      AppendedAgain(w, meta, vectors);
      next := AddNow(run, meta, vectors);
    } else {
      var at :| 0 <= at < |w.late| && w.late[at].declared == Some(meta) && w.late[at].vectors != [];
      next := LateDoubles(run, meta, vectors, at);
    }
  }

  /** At the check itself no row of the operation is in the index, so only a
      dropped request can double them. */
  lemma CheckedIsUnseen(run: seq<World>, meta: Meta, vectors: seq<nat>)
    requires Waits(run, meta, vectors) && run[|run| - 1].memory.Some?
    requires |run[|run| - 1].memory.value.index| == meta.expectedLen
    ensures Fresh(run[|run| - 1], meta) <==> !SentBefore(run[|run| - 1].late, meta)
  {
    RunKeepsInv(run, |run| - 1);
  }

  // ---- What a retry is told ----

  datatype Retried = Recognised | AddedAgain | Declined

  /** What a request for the operation meets, whoever was answered before. */
  ghost function Outcome(w: World, meta: Meta, vectors: seq<nat>): Retried
    requires Enabled(w, AddStart(Some(meta), vectors))
  {
    var t := Apply(w.(answered := {}), AddStart(Some(meta), vectors));
    if t.add.Checked? then AddedAgain
    else if t.add == Recorded(meta, true) || meta in t.answered then Recognised
    else Declined
  }

  /** A retry of a request that was just dropped: it is recognised exactly when
      the request got as far as its record and the index still ends there, and
      added again exactly when the rows are still to come and the index still has
      the declared length; otherwise it is declined. */
  lemma RetryAfterDrop(w: World, meta: Meta, vectors: seq<nat>)
    requires Inv(w) && w.up && w.memory.Some? && !w.op.Deleting? && |vectors| == meta.rows > 0
    requires w.add == Checked(Some(meta), vectors) || w.add == Added(meta) || (w.add.Recorded? && w.add.meta == meta)
    requires !w.add.Recorded? && w.memory.value.lastIngest.Some? ==>
               w.memory.value.lastIngest.value.meta.operation != meta.operation
    ensures var dropped, end := Apply(w, DropRequest), |w.memory.value.index|;
            && Enabled(dropped, AddStart(Some(meta), vectors))
            && (Outcome(dropped, meta, vectors) == Recognised <==> w.add.Recorded? && end == DeclaredEnd(meta))
            && (Outcome(dropped, meta, vectors) == AddedAgain <==> w.add.Checked? && end == meta.expectedLen)
  {
    if w.add.Added? {
      var at :| meta.expectedLen <= at && HoldsAt(w.memory.value.index, meta, at);
    }
  }
}
