/** The main results about durable shards and retry-safe ingest. */
module StoreTheorems {
  import opened Ranking
  import opened Rows
  import opened Store
  import opened StoreRuns
  import opened StoreContents

  // ---- Restart ----

  /** Whenever the process stops, a restart finds the directory CURRENT names
      complete and in agreement with its manifest, and loads exactly it. */
  lemma RestartsSucceed(run: seq<World>, n: nat)
    requires IsRun(run) && n < |run| && Enabled(run[n], Restart)
    ensures var d, t := run[n].disk, Apply(run[n], Restart);
            && t.up
            && (d.current.None? ==> t.memory.None?)
            && (d.current.Some? ==>
                  && d.current.value in d.gens && Complete(d.gens[d.current.value], d.current.value)
                  && t.memory == Some(FromDir(d.gens[d.current.value], d.current.value)))
  {
    RunKeepsInv(run, n);
    RestartKeeps(run[n]);
  }

  ghost predicate Ahead(d: Disk, t: Disk) {
    && Durable(d) <= Durable(t)
    && (d.current.Some? ==> t.current.Some? && d.current.value <= t.current.value)
  }

  lemma AheadChains(a: Disk, b: Disk, c: Disk)
    requires Ahead(a, b) && Ahead(b, c)
    ensures Ahead(a, c)
  {
  }

  /** While the shard's directory stands, CURRENT never moves back and what a
      restart would restore only grows at the end. */
  lemma StepKeepsDurable(w: World, step: Step)
    requires Inv(w) && Enabled(w, step) && (step != DeleteRename || Apply(w, step).disk.present)
    ensures w.answered <= Apply(w, step).answered && Ahead(w.disk, Apply(w, step).disk)
  {
    match step
    case FileStep => AdvanceKeeps(w.disk, w.memory.value, w.op.p);
    case Sweep(generation, left) => SweepKeeps(w, generation, left);
    case _ =>
  }

  /** While the directory stands, nothing an earlier restart would have
      restored is lost to a later one, and answers stand. */
  lemma DurableGrows(run: seq<World>, n: nat, k: nat)
    requires IsRun(run) && n <= k < |run| && forall i :: n <= i <= k ==> run[i].disk.present
    ensures Ahead(run[n].disk, run[k].disk) && run[n].answered <= run[k].answered
  {
    forall i | n <= i < k ensures Onward(run[i], run[i + 1]) { NextKeepsDurable(run, i); }
    OnwardAlong(run[n..k + 1]);
  }

  ghost predicate Onward(w: World, t: World) {
    Ahead(w.disk, t.disk) && w.answered <= t.answered
  }

  lemma {:induction false} OnwardAlong(worlds: seq<World>)
    requires worlds != [] && forall i :: 0 <= i < |worlds| - 1 ==> Onward(worlds[i], worlds[i + 1])
    ensures Onward(worlds[0], worlds[|worlds| - 1])
  {
    if 1 < |worlds| {
      var init := worlds[..|worlds| - 1];
      OnwardAlong(init);
      assert Onward(worlds[|worlds| - 2], worlds[|worlds| - 1]);
      AheadChains(worlds[0].disk, worlds[|worlds| - 2].disk, worlds[|worlds| - 1].disk);
    }
  }

  lemma NextKeepsDurable(run: seq<World>, n: nat)
    requires IsRun(run) && n + 1 < |run| && run[n + 1].disk.present
    ensures Onward(run[n], run[n + 1])
  {
    RunKeepsInv(run, n);
    var step := StepTaken(run, n);
    StepKeepsDurable(run[n], step);
  }

  // ---- Deletion ----

  lemma GoneNext(run: seq<World>, n: nat)
    requires IsRun(run) && n + 1 < |run|
    requires run[n].created && !run[n].disk.present && run[n].memory.None?
    ensures run[n + 1].created && !run[n + 1].disk.present && run[n + 1].memory.None?
  {
    RunKeepsInv(run, n);
    var step := StepTaken(run, n);
  }

  /** A deleted shard, its directory a tombstone and nothing holding it, never
      comes back. */
  lemma {:induction false} GoneStaysGone(run: seq<World>, n: nat, k: nat)
    requires IsRun(run) && n <= k < |run|
    requires run[n].created && !run[n].disk.present && run[n].memory.None?
    ensures run[k].created && !run[k].disk.present && run[k].memory.None? && Restore(run[k].disk) == Absent
  {
    if n < k {
      GoneStaysGone(run, n, k - 1);
      GoneNext(run, k - 1);
    }
  }

  lemma Extend(run: seq<World>, step: Step) returns (next: seq<World>)
    requires IsRun(run) && Enabled(run[|run| - 1], step)
    ensures IsRun(next) && next == run + [Apply(run[|run| - 1], step)]
  {
    next := run + [Apply(run[|run| - 1], step)];
    forall n: nat | n + 1 < |next| ensures NextAt(next, n) {
      if n + 1 < |run| { assert NextAt(run, n); }
    }
  }

  /** The world with a persist of `m` at work that has taken `n` file steps. */
  ghost function Persisted(w: World, d: Disk, m: Memory, forAdd: bool, n: nat): World {
    var (disk, memory, p) := After(d, m, n);
    w.(disk := disk, memory := Some(memory), op := Persisting(p, forAdd))
  }

  lemma FileStepOn(w: World, d: Disk, m: Memory, forAdd: bool, n: nat)
    requires n < STEPS && !Refusable(d, m)
    ensures Enabled(Persisted(w, d, m, forAdd, n), FileStep)
    ensures Apply(Persisted(w, d, m, forAdd, n), FileStep) == Persisted(w, d, m, forAdd, n + 1)
  {
    AfterIs(d, m, n);
  }

  /** A started persist, run for `n` file steps with nothing in between. */
  lemma {:induction false} FileSteps(run: seq<World>, d: Disk, m: Memory, forAdd: bool, n: nat)
    returns (next: seq<World>)
    requires IsRun(run) && n <= STEPS && !Refusable(d, m)
    requires var w := run[|run| - 1]; w.disk == d && w.memory == Some(m) && w.op == Persisting(Prepare(m), forAdd)
    ensures IsRun(next) && run <= next
    ensures next[|next| - 1] == Persisted(run[|run| - 1], d, m, forAdd, n)
    ensures forall i :: |run| <= i < |next| ==> next[i].add == run[|run| - 1].add && next[i].op.Persisting?
  {
    if n == 0 {
      assert After(d, m, 0) == (d, m, Prepare(m));
      next := run;
    } else {
      var before := FileSteps(run, d, m, forAdd, n - 1);
      FileStepOn(run[|run| - 1], d, m, forAdd, n - 1);
      next := Extend(before, FileStep);
    }
  }

  /** A shard without a directory that is still in memory is written again by
      the next flush. */
  lemma FlushBringsBack(run: seq<World>) returns (next: seq<World>)
    requires IsRun(run)
    requires var w := run[|run| - 1];
             !w.disk.present && w.memory.Some? && w.op == NoOp && w.memory.value.generation + 1 < U64
    ensures IsRun(next) && run <= next
    ensures var m := run[|run| - 1].memory.value;
            Restore(next[|next| - 1].disk) == Loaded(m.(generation := m.generation + 1))
  {
    RunKeepsInv(run, |run| - 1);
    var m := run[|run| - 1].memory.value;
    next := Extend(run, Flush);
    next := FileSteps(next, NO_DISK, m, false, STEPS);
    PersistMakesDurable(NO_DISK, m);
  }

  /** Nothing can write this shard again: it has no directory, and no memory or
      no generation left to number. */
  ghost predicate Lost(w: World) {
    && w.created && !w.disk.present && !w.op.Persisting?
    && (w.memory.Some? ==> U64 <= w.memory.value.generation + 1)
  }

  lemma LostStep(w: World, step: Step)
    requires Inv(w) && Lost(w) && Enabled(w, step)
    ensures Lost(Apply(w, step))
  {
  }

  lemma LostNext(run: seq<World>, n: nat)
    requires IsRun(run) && n + 1 < |run| && Lost(run[n])
    ensures Lost(run[n + 1])
  {
    RunKeepsInv(run, n);
    var step := StepTaken(run, n);
    LostStep(run[n], step);
  }

  lemma {:induction false} LostStaysLost(run: seq<World>, n: nat, k: nat)
    requires IsRun(run) && n <= k < |run| && Lost(run[n])
    ensures Lost(run[k]) && Restore(run[k].disk) == Absent
    decreases k
  {
    if n < k {
      LostStaysLost(run, n, k - 1);
      LostNext(run, k - 1);
    }
  }

  /** Some continuation of the run restores the shard. */
  ghost predicate CanReturn(run: seq<World>) {
    exists next: seq<World> :: IsRun(next) && run <= next && Restore(next[|next| - 1].disk).Loaded?
  }

  /** After its rename a delete keeps the shard from ever returning, unless it
      fails and leaves it in memory with a generation still to write. */
  lemma TombstoneReturnsIff(run: seq<World>, step: Step) returns (next: seq<World>)
    requires IsRun(run) && run[|run| - 1].op == Deleting(true) && run[|run| - 1].created
    requires step == DeleteForget || step == DeleteFail || step == Crash
    requires Enabled(run[|run| - 1], step)
    ensures IsRun(next) && next == run + [Apply(run[|run| - 1], step)]
    ensures var m := run[|run| - 1].memory;
            CanReturn(next) <==> step == DeleteFail && m.Some? && m.value.generation + 1 < U64
  {
    RunKeepsInv(run, |run| - 1);
    next := Extend(run, step);
    var t := next[|next| - 1];
    if step == DeleteFail && t.memory.Some? && t.memory.value.generation + 1 < U64 {
      var later := FlushBringsBack(next);
      assert CanReturn(next);
    } else {
      assert Lost(t);
      forall later: seq<World> | IsRun(later) && next <= later ensures !Restore(later[|later| - 1].disk).Loaded? {
        assert later[|next| - 1] == t;
        LostStaysLost(later, |next| - 1, |later| - 1);
      }
    }
  }

  // ---- A persist stopped before its pointer ----

  /** The directory the next persist would write is taken, and no persist is
      past finding that out. */
  ghost predicate Barred(w: World) {
    && w.created
    && (w.disk.current.Some? ==> w.disk.current.value + 1 in w.disk.gens)
    && (w.disk.current.None? && w.memory.Some? ==> w.memory.value.generation + 1 in w.disk.gens)
    && (w.op.Persisting? ==> w.op.p.stage == Prepared || w.op.p.stage == Refused)
  }

  lemma BarredFileStep(w: World)
    requires Inv(w) && Barred(w) && Enabled(w, FileStep)
    ensures var t := Apply(w, FileStep);
            t.op.p.stage == Refused && t.memory == w.memory && t.disk == w.disk.(present := true)
  {
  }

  lemma BarredRestart(w: World)
    requires Inv(w) && Barred(w) && Enabled(w, Restart)
    ensures Barred(Apply(w, Restart)) && Apply(w, Restart).disk == w.disk
  {
    RestartKeeps(w);
  }

  lemma BarredStep(w: World, step: Step)
    requires Inv(w) && Barred(w) && Enabled(w, step) && Apply(w, step).disk.present
    ensures Barred(Apply(w, step)) && Durable(Apply(w, step).disk) == Durable(w.disk)
    ensures Apply(w, step).disk.current == w.disk.current
  {
    match step
    case FileStep => BarredFileStep(w);
    case Restart => BarredRestart(w);
    case _ =>
  }

  lemma BarredNext(run: seq<World>, n: nat)
    requires IsRun(run) && n + 1 < |run| && Barred(run[n]) && run[n + 1].disk.present
    ensures Barred(run[n + 1]) && Durable(run[n + 1].disk) == Durable(run[n].disk)
    ensures run[n + 1].disk.current == run[n].disk.current
  {
    RunKeepsInv(run, n);
    var step := StepTaken(run, n);
    BarredStep(run[n], step);
  }

  ghost predicate BarsOn(w: World, t: World) {
    Barred(w) ==> Barred(t) && Durable(t.disk) == Durable(w.disk) && t.disk.current == w.disk.current
  }

  lemma {:induction false} BarsAlong(worlds: seq<World>)
    requires worlds != [] && forall i :: 0 <= i < |worlds| - 1 ==> BarsOn(worlds[i], worlds[i + 1])
    ensures BarsOn(worlds[0], worlds[|worlds| - 1])
  {
    if 1 < |worlds| {
      BarsAlong(worlds[..|worlds| - 1]);
      assert BarsOn(worlds[|worlds| - 2], worlds[|worlds| - 1]);
    }
  }

  /** From then on, restarts and failed deletes included, every persist is
      refused and nothing more becomes durable, until a delete renames the
      directory away. */
  lemma BarredStaysBarred(run: seq<World>, n: nat, k: nat)
    requires IsRun(run) && n <= k < |run| && Barred(run[n])
    requires forall i :: n <= i <= k ==> run[i].disk.present
    ensures Barred(run[k]) && Durable(run[k].disk) == Durable(run[n].disk)
    ensures run[k].disk.current == run[n].disk.current
  {
    forall i | n <= i < k ensures BarsOn(run[i], run[i + 1]) {
      if Barred(run[i]) { BarredNext(run, i); }
    }
    BarsAlong(run[n..k + 1]);
  }

  /** On any idle shard that could have persisted, a flush stopped between
      activating its directory and moving CURRENT brings this about. */
  lemma StoppedPersistBars(run: seq<World>) returns (next: seq<World>)
    requires IsRun(run)
    requires var w := run[|run| - 1];
             w.memory.Some? && w.op == NoOp && w.memory.value.generation + 1 < U64 && !Refusable(w.disk, w.memory.value)
    ensures IsRun(next) && run <= next && Barred(next[|next| - 1])
    ensures var w, t := run[|run| - 1], next[|next| - 1];
            t.op == NoOp && t.memory == w.memory && Durable(t.disk) == Durable(w.disk)
  {
    RunKeepsInv(run, |run| - 1);
    var w := run[|run| - 1];
    ActivatedBars(w.disk, w.memory.value);
    next := Extend(run, Flush);
    next := FileSteps(next, w.disk, w.memory.value, false, 7);
    next := Extend(next, PersistFail);
  }

  lemma ActivatedBars(d: Disk, m: Memory)
    requires DiskSound(d) && Follows(d, m) && !Refusable(d, m)
    ensures var (disk, memory, p) := After(d, m, 7);
            && memory == m && p.stage == Activated && disk.current == d.current && m.generation + 1 in disk.gens
            && (d.current.Some? ==> d.current.value + 1 in disk.gens)
            && Durable(disk) == Durable(d)
  {
    AfterIs(d, m, 7);
  }

  // ---- Retry-safe ingest: which answers are durable ----

  /** `add` answers a replay at once: the record matches and its generation is
      the current one. */
  ghost predicate Shortcut(m: Memory, meta: Meta) {
    && m.lastIngest.Some?
    && var record := m.lastIngest.value;
       record.meta == meta && record.len == |m.index| && m.generation == record.generation
  }

  /** Rows that end where the declaration ends are where it puts them. */
  lemma EndsWhereDeclared(rows: seq<Vector>, meta: Meta)
    requires Held(rows, meta) && |rows| <= DeclaredEnd(meta)
    ensures Holds(rows, meta)
  {
  }

  /** A success answer comes after the add's own persist or from the shortcut. */
  lemma AnswersComeTwoWays(w: World, step: Step, meta: Meta)
    requires Inv(w) && Enabled(w, step) && meta !in w.answered && meta in Apply(w, step).answered
    ensures step == PersistDone || (step.AddStart? && step.meta == Some(meta) && Shortcut(w.memory.value, meta))
    ensures step == PersistDone ==> w.op.Persisting? && w.op.forAdd && w.add.Recorded? && w.add.meta == meta
  {
  }

  /** An answer given after the add's own persist is durable, in every run; its
      rows are durable where they were declared exactly when they were added
      there. */
  lemma PersistedAnswerIsDurable(w: World)
    requires Inv(w) && Enabled(w, PersistDone) && w.op.forAdd
    ensures Held(Durable(w.disk), w.add.meta)
    ensures Holds(Durable(w.disk), w.add.meta) <==> Holds(w.memory.value.index, w.add.meta)
  {
    CountedIsDurable(w.disk, w.memory.value, w.op.p);
    PrefixHolds(Durable(w.disk), w.memory.value.index, w.add.meta);
  }

  lemma PrefixHolds(a: seq<Vector>, b: seq<Vector>, meta: Meta)
    requires a <= b && Held(a, meta)
    ensures Holds(a, meta) <==> Holds(b, meta)
  {
    var at :| meta.expectedLen <= at && HoldsAt(a, meta, at);
    assert forall i :: 0 <= i < |a| ==> a[i] == b[i];
  }

  lemma PrefixHoldsIff(a: seq<Vector>, b: seq<Vector>, meta: Meta)
    requires a <= b && Holds(b, meta)
    ensures Holds(a, meta) <==> DeclaredEnd(meta) <= |a|
    ensures Held(a, meta) <==> DeclaredEnd(meta) <= |a|
  {
    if DeclaredEnd(meta) <= |a| { assert HoldsAt(a, meta, meta.expectedLen); }
  }

  /** The shortcut is only taken when the rows are where they were declared, and
      the answer is durable exactly when the directory CURRENT names holds as
      many rows as the record says. */
  lemma ShortcutIsDurableIff(w: World, meta: Meta)
    requires Inv(w) && w.memory.Some? && Shortcut(w.memory.value, meta)
    ensures Holds(w.memory.value.index, meta)
    ensures Holds(Durable(w.disk), meta) <==> |Durable(w.disk)| == w.memory.value.lastIngest.value.len
    ensures Held(Durable(w.disk), meta) <==> Holds(Durable(w.disk), meta)
  {
    EndsWhereDeclared(w.memory.value.index, meta);
    PrefixHoldsIff(Durable(w.disk), w.memory.value.index, meta);
  }

  /** Every success answer in every run, dropped requests, overlapping flushes
      and failed deletes included: when its rows are durable, and when they are
      durable where they were declared. */
  lemma AnswerIsDurableIff(run: seq<World>, n: nat, step: Step, meta: Meta)
    requires IsRun(run) && n < |run| && Enabled(run[n], step)
    requires meta !in run[n].answered && meta in Apply(run[n], step).answered
    ensures run[n].memory.Some?
    ensures Held(Durable(Apply(run[n], step).disk), meta) <==>
              step == PersistDone || |Durable(run[n].disk)| == |run[n].memory.value.index|
    ensures Holds(Durable(Apply(run[n], step).disk), meta) <==>
              Held(Durable(Apply(run[n], step).disk), meta) && Holds(run[n].memory.value.index, meta)
  {
    RunKeepsInv(run, n);
    AnswersComeTwoWays(run[n], step, meta);
    if step == PersistDone { PersistedAnswerIsDurable(run[n]); } else { ShortcutIsDurableIff(run[n], meta); }
  }

  /** A durable answer stays durable: every restart while the shard stands
      restores its rows, and what it restores are the vectors the operation's
      requests sent. */
  lemma DurableAnswerStands(run: seq<World>, n: nat, k: nat, meta: Meta)
    requires IsRun(run) && n <= k < |run| && Held(Durable(run[n].disk), meta)
    requires forall i :: n <= i <= k ==> run[i].disk.present
    ensures Held(Durable(run[k].disk), meta)
    ensures Holds(Durable(run[k].disk), meta) <==> Holds(Durable(run[n].disk), meta)
    ensures forall vectors: seq<nat> ::
              |vectors| == meta.rows &&
              (forall i :: 0 <= i < |run| && run[i].add.Checked? && run[i].add.declared == Some(meta) ==>
                 run[i].add.vectors == vectors) ==>
                exists before: seq<nat>, after: seq<nat> ::
                  meta.expectedLen <= |before| && Contents(Durable(run[k].disk)) == before + vectors + after
  {
    DurableGrows(run, n, k);
    HeldInPrefix(Durable(run[n].disk), Durable(run[k].disk), meta);
    PrefixHolds(Durable(run[n].disk), Durable(run[k].disk), meta);
    HeldIsAsSent(run, k, meta);
  }

  lemma HeldIsAsSent(run: seq<World>, k: nat, meta: Meta)
    requires IsRun(run) && k < |run| && Held(Durable(run[k].disk), meta)
    ensures forall vectors: seq<nat> ::
              |vectors| == meta.rows &&
              (forall i :: 0 <= i < |run| && run[i].add.Checked? && run[i].add.declared == Some(meta) ==>
                 run[i].add.vectors == vectors) ==>
                exists before: seq<nat>, after: seq<nat> ::
                  meta.expectedLen <= |before| && Contents(Durable(run[k].disk)) == before + vectors + after
  {
    forall vectors: seq<nat> | |vectors| == meta.rows && SentFor(run, meta, vectors)
      ensures exists before: seq<nat>, after: seq<nat> ::
                meta.expectedLen <= |before| && Contents(Durable(run[k].disk)) == before + vectors + after
    {
      HeldRowsAreSent(run, k, meta, vectors, Durable(run[k].disk));
    }
  }

  // ---- Runs in which no answer can be lost ----

  /** A persist is at work that took its snapshot before the operation's rows
      were added: a flush, or the persist of a request that was dropped. It will
      bring about the generation that the operation's record is to name. */
  ghost predicate Overtaken(w: World) {
    && w.add.Added? && w.memory.Some? && |w.memory.value.index| == DeclaredEnd(w.add.meta)
    && w.op.Persisting? && 4 <= Rank(w.op.p.stage) < 11
    && w.op.p.temp.index.Some? && !Held(w.op.p.temp.index.value, w.add.meta)
  }

  /** The operation is recorded all the same. */
  ghost predicate Overtakes(w: World, t: World) {
    Overtaken(w) && t.add.Recorded?
  }

  /** A delete that failed after its rename and left the shard in memory. */
  ghost predicate HalfDeleted(w: World, t: World) {
    w.op == Deleting(true) && t.op == NoOp && t.memory.Some?
  }

  ghost predicate Orderly(run: seq<World>) {
    forall n :: 0 <= n < |run| - 1 ==> !Overtakes(run[n], run[n + 1]) && !HalfDeleted(run[n], run[n + 1])
  }

  /** The index still ends where the record says, so that a replay could be
      answered from it once its generation is the current one. */
  ghost predicate Answerable(m: Memory) {
    m.lastIngest.Some? && |m.index| <= m.lastIngest.value.len
  }

  /** A record whose generation is the current one is on disk. */
  ghost predicate RecordDurable(d: Disk, m: Memory) {
    Answerable(m) && m.lastIngest.value.generation == m.generation ==> Held(Durable(d), m.lastIngest.value.meta)
  }

  /** A persist with its snapshot, which will bring the record's generation
      about, has the record's rows. */
  ghost predicate CarriesRecord(m: Memory, p: Persist) {
    4 <= Rank(p.stage) && Answerable(m) && m.lastIngest.value.generation == p.generation ==>
      p.temp.index.Some? && Held(p.temp.index.value, m.lastIngest.value.meta)
  }

  ghost predicate DurableInv(w: World) {
    && (forall meta :: meta in w.answered ==> Held(Durable(w.disk), meta))
    && (w.memory.Some? && w.op != Deleting(true) ==> RecordDurable(w.disk, w.memory.value))
    && (w.op.Persisting? && w.memory.Some? ==> CarriesRecord(w.memory.value, w.op.p))
  }

  lemma CountedIsDurable(d: Disk, m: Memory, p: Persist)
    requires DiskSound(d) && MemorySound(m) && PersistSound(d, m, p) && 9 <= Rank(p.stage)
    ensures Restore(d) == Loaded(FromDir(p.temp, p.generation)) && Durable(d) == p.temp.index.value
  {
    WrittenIsComplete(d, m, p);
  }

  lemma FileStepKeepsDurable(w: World)
    requires Inv(w) && DurableInv(w) && Enabled(w, FileStep)
    ensures DurableInv(Apply(w, FileStep))
  {
    var t := Apply(w, FileStep);
    StepKeepsDurable(w, FileStep);
    StepKeepsInv(w, FileStep);
    forall meta | meta in w.answered ensures Held(Durable(t.disk), meta) {
      HeldInPrefix(Durable(w.disk), Durable(t.disk), meta);
    }
    var m := w.memory.value;
    if w.op.p.stage == Synced {
      CountedIsDurable(t.disk, t.memory.value, t.op.p);
    } else if Answerable(m) && m.lastIngest.value.generation == m.generation {
      HeldInPrefix(Durable(w.disk), Durable(t.disk), m.lastIngest.value.meta);
    }
  }

  lemma AnswerIsDurable(w: World)
    requires Inv(w) && DurableInv(w) && Enabled(w, PersistDone)
    ensures DurableInv(Apply(w, PersistDone))
  {
    if w.op.forAdd { CountedIsDurable(w.disk, w.memory.value, w.op.p); }
  }

  lemma RestartIsDurable(w: World)
    requires Inv(w) && DurableInv(w) && Enabled(w, Restart)
    ensures DurableInv(Apply(w, Restart))
  {
    RestartKeeps(w);
  }

  /** Steps of the disk, and the end of a persist. */
  lemma DiskStepIsDurable(w: World, step: Step)
    requires Inv(w) && DurableInv(w) && Enabled(w, step)
    requires step.FileStep? || step.Sweep? || step.PersistDone? || step.Restart?
    ensures DurableInv(Apply(w, step))
  {
    match step
    case FileStep => FileStepKeepsDurable(w);
    case Sweep(generation, left) => SweepKeeps(w, generation, left);
    case PersistDone => AnswerIsDurable(w);
    case Restart => RestartIsDurable(w);
  }

  lemma OrderlyStepKeeps(w: World, step: Step)
    requires Inv(w) && DurableInv(w) && Enabled(w, step)
    requires !Overtakes(w, Apply(w, step)) && !HalfDeleted(w, Apply(w, step))
    ensures DurableInv(Apply(w, step))
  {
    if step.FileStep? || step.Sweep? || step.PersistDone? || step.Restart? { DiskStepIsDurable(w, step); }
  }

  lemma {:induction false} OrderlyRunKeeps(run: seq<World>, n: nat)
    requires IsRun(run) && Orderly(run) && n < |run|
    ensures Inv(run[n]) && DurableInv(run[n])
  {
    RunKeepsInv(run, n);
    if n > 0 {
      OrderlyRunKeeps(run, n - 1);
      var step := StepTaken(run, n - 1);
      assert !Overtakes(run[n - 1], run[n]) && !HalfDeleted(run[n - 1], run[n]);
      OrderlyStepKeeps(run[n - 1], step);
    }
  }

  /** When no record overtakes a snapshot, shortcuts are safe too: an operation
      whose caller was told of success, fresh or replayed, is in what every later
      restart restores, with the vectors its requests sent. */
  lemma SuccessIsDurable(run: seq<World>, n: nat, k: nat, meta: Meta)
    requires IsRun(run) && Orderly(run) && n <= k < |run|
    requires meta in run[n].answered && forall i :: n <= i <= k ==> run[i].disk.present
    ensures Held(Durable(run[k].disk), meta)
    ensures forall vectors: seq<nat> ::
              |vectors| == meta.rows &&
              (forall i :: 0 <= i < |run| && run[i].add.Checked? && run[i].add.declared == Some(meta) ==>
                 run[i].add.vectors == vectors) ==>
                exists before: seq<nat>, after: seq<nat> ::
                  meta.expectedLen <= |before| && Contents(Durable(run[k].disk)) == before + vectors + after
  {
    DurableGrows(run, n, k);
    OrderlyRunKeeps(run, k);
    HeldIsAsSent(run, k, meta);
  }

  /** A persist that has its snapshot has gone on, with nothing in between. */
  ghost predicate Advanced(w: World, t: World) {
    && w.memory.Some? && w.op.Persisting? && t.op.Persisting?
    && t.op.p.temp.index == w.op.p.temp.index
    && t == w.(disk := t.disk, memory := t.memory, op := Persisting(t.op.p, w.op.forAdd))
    && t.memory == Some(if t.op.p.stage == Counted then w.memory.value.(generation := w.op.p.generation)
                        else w.memory.value)
    && t.op.p.generation == w.op.p.generation
  }

  lemma FinishOne(w: World)
    requires Inv(w) && w.memory.Some? && w.op.Persisting? && 4 <= Rank(w.op.p.stage) < 11
    ensures Enabled(w, FileStep) && Rank(Apply(w, FileStep).op.p.stage) == Rank(w.op.p.stage) + 1
    ensures Advanced(w, Apply(w, FileStep))
  {
  }

  lemma AdvancedOn(a: World, b: World, c: World)
    requires Advanced(a, b) && Advanced(b, c) && b.op.p.stage != Counted
    ensures Advanced(a, c)
  {
  }

  lemma {:induction false} Finish(run: seq<World>) returns (next: seq<World>)
    requires IsRun(run)
    requires var w := run[|run| - 1]; w.memory.Some? && w.op.Persisting? && 4 <= Rank(w.op.p.stage) < 11
    ensures IsRun(next) && run <= next
    ensures Advanced(run[|run| - 1], next[|next| - 1]) && next[|next| - 1].op.p.stage == Counted
    decreases 11 - Rank(run[|run| - 1].op.p.stage)
  {
    var w := run[|run| - 1];
    RunKeepsInv(run, |run| - 1);
    FinishOne(w);
    next := Extend(run, FileStep);
    if Rank(w.op.p.stage) < 10 {
      var middle := next[|next| - 1];
      next := Finish(next);
      AdvancedOn(w, middle, next[|next| - 1]);
    }
  }

  lemma {:induction false} FinishedIsDurable(run: seq<World>)
    requires IsRun(run) && run[|run| - 1].op.Persisting? && run[|run| - 1].op.p.stage == Counted
    ensures var t := run[|run| - 1];
            t.disk.present && t.op.p.temp.index.Some? && Durable(t.disk) == t.op.p.temp.index.value
  {
    var t := run[|run| - 1];
    RunKeepsInv(run, |run| - 1);
    CountedIsDurable(t.disk, t.memory.value, t.op.p);
  }

  /** A recorded operation whose request is dropped while a persist with another
      snapshot is at work: what is left when the persist is done. */
  lemma DropThenFinish(run: seq<World>) returns (next: seq<World>)
    requires IsRun(run)
    requires var w := run[|run| - 1];
             w.add.Recorded? && w.memory.Some? && w.op.Persisting? && 4 <= Rank(w.op.p.stage) < 11
    ensures IsRun(next) && run <= next
    ensures var w, t := run[|run| - 1], next[|next| - 1];
            && t.add == NoAdd && t.op == NoOp && t.up == w.up && t.disk.present
            && w.op.p.temp.index.Some? && Durable(t.disk) == w.op.p.temp.index.value
            && t.memory == Some(w.memory.value.(generation := w.op.p.generation))
  {
    next := Extend(run, DropRequest);
    next := Finish(next);
    FinishedIsDurable(next);
    next := Extend(next, PersistDone);
  }

  /** An operation is recorded for the generation a running persist brings about. */
  lemma RecordNamesPersist(w: World)
    requires Inv(w) && Overtaken(w) && Enabled(w, AddRecord)
    ensures var t, meta := Apply(w, AddRecord), w.add.meta;
            && w.up && Overtakes(w, t) && t.add == Recorded(meta, false) && t.op == w.op && t.up == w.up
            && t.memory.Some? && t.memory.value.labels.None? && t.memory.value.index == w.memory.value.index
            && t.memory.value.lastIngest == Some(IngestRecord(meta, |w.memory.value.index|, w.op.p.generation))
  {
  }

  /** The other way round: once an operation is overtaken, recording it can lose
      its answer. The request is dropped, the persist finishes, and the retry is
      told of success for rows that no restart will find. */
  lemma OvertakenLosesAnAnswer(run: seq<World>) returns (next: seq<World>)
    requires IsRun(run) && Overtaken(run[|run| - 1]) && Enabled(run[|run| - 1], AddRecord)
    ensures IsRun(next) && run + [Apply(run[|run| - 1], AddRecord)] <= next
    ensures var meta, t := run[|run| - 1].add.meta, next[|next| - 1];
            t.disk.present && t.memory.Some? && meta in t.answered && !Held(Durable(t.disk), meta)
  {
    var w := run[|run| - 1];
    RunKeepsInv(run, |run| - 1);
    RecordNamesPersist(w);
    next := Extend(run, AddRecord);
    next := DropThenFinish(next);
    next := Extend(next, AddStart(Some(w.add.meta), seq(w.add.meta.rows, _ => 0)));
  }
}
