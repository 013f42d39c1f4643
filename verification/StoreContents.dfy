/** What the rows of a shard hold: the vectors their requests sent, in order. */
module StoreContents {
  import opened Ranking
  import opened Rows
  import opened Store
  import opened StoreRuns

  function Contents(rows: seq<Vector>): seq<nat> {
    seq(|rows|, i requires 0 <= i < |rows| => rows[i].content)
  }

  /** Rows only come in at the end, as they were sent: a new shard is what it was
      given, an add or a late chunk puts its vectors behind what was there, a
      restart takes what is on disk, and nothing else touches them. */
  lemma AppendsInOrder(w: World, step: Step)
    requires Inv(w) && Enabled(w, step) && Apply(w, step).memory.Some?
    ensures var t := Apply(w, step); var now := Contents(t.memory.value.index);
            match step
            case Create(contents, _) => now == contents
            case AddRows => now == Contents(w.memory.value.index) + w.add.vectors
            case Land(at) => now == Contents(w.memory.value.index) + w.late[at].vectors
            case Restart => now == Contents(Durable(w.disk))
            case _ => w.memory.Some? && now == Contents(w.memory.value.index)
  {
    match step {
      case Restart => RestartKeeps(w);
      case AddRows => LandedContents(w.memory.value, Chunk(w.add.declared, w.add.vectors));
      case Land(at) => LandedContents(w.memory.value, w.late[at]);
      case FileStep => AdvanceKeeps(w.disk, w.memory.value, w.op.p);
      case Create(_, _) =>
      case _ => OtherStepsKeepRows(w, step);
    }
  }

  lemma LandedContents(m: Memory, c: Chunk)
    ensures Contents(Landed(m, c).index) == Contents(m.index) + c.vectors
  {
  }

  lemma OtherStepsKeepRows(w: World, step: Step)
    requires Enabled(w, step) && Apply(w, step).memory.Some?
    requires !step.Create? && !step.AddRows? && !step.Land? && !step.FileStep? && !step.Restart?
    ensures w.memory.Some? && Apply(w, step).memory.value.index == w.memory.value.index
  {
  }

  // ---- The vectors of one operation ----

  /** Every request for the operation that got past its check sent these vectors. */
  ghost predicate SentFor(run: seq<World>, meta: Meta, vectors: seq<nat>) {
    forall n :: 0 <= n < |run| && run[n].add.Checked? && run[n].add.declared == Some(meta) ==>
      run[n].add.vectors == vectors
  }

  /** Each row of the operation holds the vector its place in the request names. */
  ghost predicate AsSent(rows: seq<Vector>, meta: Meta, vectors: seq<nat>) {
    forall i :: 0 <= i < |rows| && rows[i].origin.Some? && rows[i].origin.value.meta == meta ==>
      rows[i].origin.value.offset < |vectors| && rows[i].content == vectors[rows[i].origin.value.offset]
  }

  ghost predicate SentInv(w: World, meta: Meta, vectors: seq<nat>) {
    && AsSent(Durable(w.disk), meta, vectors)
    && (w.memory.Some? ==> AsSent(w.memory.value.index, meta, vectors))
    && (forall i :: 0 <= i < |w.late| && w.late[i].declared == Some(meta) ==> w.late[i].vectors == vectors)
  }

  lemma AppendedAsSent(m: Memory, c: Chunk, meta: Meta, vectors: seq<nat>)
    requires AsSent(m.index, meta, vectors) && (c.declared == Some(meta) ==> c.vectors == vectors)
    ensures AsSent(Landed(m, c).index, meta, vectors)
  {
  }

  lemma PrefixAsSent(a: seq<Vector>, b: seq<Vector>, meta: Meta, vectors: seq<nat>)
    requires a <= b && AsSent(b, meta, vectors)
    ensures AsSent(a, meta, vectors)
  {
    assert forall i :: 0 <= i < |a| ==> a[i] == b[i];
  }

  lemma FileStepAsSent(w: World, meta: Meta, vectors: seq<nat>)
    requires Inv(w) && SentInv(w, meta, vectors) && Enabled(w, FileStep)
    ensures SentInv(Apply(w, FileStep), meta, vectors)
  {
    FileStepKeeps(w);
    AdvanceKeeps(w.disk, w.memory.value, w.op.p);
    PrefixAsSent(Durable(Apply(w, FileStep).disk), w.memory.value.index, meta, vectors);
  }

  lemma AddStepAsSent(w: World, step: Step, meta: Meta, vectors: seq<nat>)
    requires Inv(w) && SentInv(w, meta, vectors) && Enabled(w, step)
    requires w.add.Checked? && w.add.declared == Some(meta) ==> w.add.vectors == vectors
    requires step.AddRows? || step.Land? || step.DropRequest?
    ensures SentInv(Apply(w, step), meta, vectors)
  {
    match step {
      case AddRows => AppendedAsSent(w.memory.value, Chunk(w.add.declared, w.add.vectors), meta, vectors);
      case Land(at) => AppendedAsSent(w.memory.value, w.late[at], meta, vectors);
      case _ =>
    }
  }

  lemma DiskStepAsSent(w: World, step: Step, meta: Meta, vectors: seq<nat>)
    requires Inv(w) && SentInv(w, meta, vectors) && Enabled(w, step)
    requires step.FileStep? || step.Sweep? || step.Restart?
    ensures SentInv(Apply(w, step), meta, vectors)
  {
    match step {
      case FileStep => FileStepAsSent(w, meta, vectors);
      case Sweep(generation, left) => SweepKeeps(w, generation, left);
      case Restart => RestartKeeps(w);
    }
  }

  lemma OtherStepAsSent(w: World, step: Step, meta: Meta, vectors: seq<nat>)
    requires SentInv(w, meta, vectors) && Enabled(w, step)
    requires !step.AddRows? && !step.Land? && !step.DropRequest? && !step.FileStep? && !step.Sweep? && !step.Restart?
    ensures SentInv(Apply(w, step), meta, vectors)
  {
  }

  lemma StepAsSent(w: World, step: Step, meta: Meta, vectors: seq<nat>)
    requires Inv(w) && SentInv(w, meta, vectors) && Enabled(w, step)
    requires w.add.Checked? && w.add.declared == Some(meta) ==> w.add.vectors == vectors
    ensures SentInv(Apply(w, step), meta, vectors)
  {
    match step {
      case AddRows => AddStepAsSent(w, step, meta, vectors);
      case Land(_) => AddStepAsSent(w, step, meta, vectors);
      case DropRequest => AddStepAsSent(w, step, meta, vectors);
      case FileStep => DiskStepAsSent(w, step, meta, vectors);
      case Sweep(_, _) => DiskStepAsSent(w, step, meta, vectors);
      case Restart => DiskStepAsSent(w, step, meta, vectors);
      case _ => OtherStepAsSent(w, step, meta, vectors);
    }
  }

  lemma {:induction false} RunAsSent(run: seq<World>, n: nat, meta: Meta, vectors: seq<nat>)
    requires IsRun(run) && n < |run| && SentFor(run, meta, vectors)
    ensures SentInv(run[n], meta, vectors)
  {
    if n > 0 {
      RunAsSent(run, n - 1, meta, vectors);
      RunKeepsInv(run, n - 1);
      var step := StepTaken(run, n - 1);
      StepAsSent(run[n - 1], step, meta, vectors);
    }
  }

  /** The vectors stand in `rows`, in order, from `at` on. */
  ghost predicate SpellsAt(rows: seq<Vector>, at: nat, vectors: seq<nat>) {
    at + |vectors| <= |rows| && Contents(rows)[at..at + |vectors|] == vectors
  }

  lemma HeldSpells(rows: seq<Vector>, at: nat, meta: Meta, vectors: seq<nat>)
    requires AsSent(rows, meta, vectors) && HoldsAt(rows, meta, at) && |vectors| == meta.rows
    ensures SpellsAt(rows, at, vectors)
  {
    forall j: nat | j < meta.rows ensures Contents(rows)[at..at + meta.rows][j] == vectors[j] {
      assert rows[at + j].origin == Some(Origin(meta, j));
    }
  }

  /** Wherever an operation's rows are held, in memory or for a restart, they are
      the vectors its requests sent, and where it declared them if they are held
      there. */
  lemma HeldRowsAreSent(run: seq<World>, n: nat, meta: Meta, vectors: seq<nat>, rows: seq<Vector>)
    requires IsRun(run) && n < |run| && |vectors| == meta.rows
    requires forall i :: 0 <= i < |run| && run[i].add.Checked? && run[i].add.declared == Some(meta) ==>
               run[i].add.vectors == vectors
    requires rows == Durable(run[n].disk) || (run[n].memory.Some? && rows == run[n].memory.value.index)
    ensures Held(rows, meta) ==>
              exists before: seq<nat>, after: seq<nat> ::
                meta.expectedLen <= |before| && Contents(rows) == before + vectors + after
    ensures Holds(rows, meta) ==> DeclaredEnd(meta) <= |rows|
                                  && Contents(rows)[meta.expectedLen..DeclaredEnd(meta)] == vectors
  {
    assert SentFor(run, meta, vectors);
    RunAsSent(run, n, meta, vectors);
    if Held(rows, meta) {
      var at :| meta.expectedLen <= at && HoldsAt(rows, meta, at);
      HeldSpells(rows, at, meta, vectors);
      assert Contents(rows) == Contents(rows)[..at] + vectors + Contents(rows)[at + |vectors|..];
    }
    if Holds(rows, meta) { HeldSpells(rows, meta.expectedLen, meta, vectors); }
  }
}
