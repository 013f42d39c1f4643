/** Runs that show what the store does not promise: a retry can add its rows
    again, and a success answer can be lost. */
module StoreLimits {
  import opened Ranking
  import opened Rows
  import opened Store
  import opened StoreRuns
  import opened StoreTheorems
  import opened IngestOnce

  /** The first operation on an empty shard: one row. */
  function Op(): Meta {
    Meta("a", 0, 1)
  }

  function Blank(): Memory {
    Memory([], None, 0, None)
  }

  lemma Created() returns (run: seq<World>)
    ensures IsRun(run) && |run| == 2 && run[|run| - 1] == Init().(created := true, memory := Some(Blank()))
  {
    run := Extend([Init()], Create([], None));
    assert Incoming(None, []) == [];
  }

  /** An add that has just been checked against an empty shard. */
  lemma Sent() returns (run: seq<World>)
    ensures IsRun(run) && |run| == 3 && Waits(run, Op(), [7]) && Orderly(run)
    ensures forall n :: 0 <= n < |run| ==> Apart(Pending(run[n]))
    ensures run[|run| - 1] == Init().(created := true, memory := Some(Blank()), add := Checked(Some(Op()), [7]))
  {
    run := Created();
    run := Extend(run, AddStart(Some(Op()), [7]));
  }

  /** A run goes on without an add that waits for its record or a tombstone. */
  lemma StaysOrderly(run: seq<World>, next: seq<World>)
    requires run != [] && Orderly(run) && run <= next
    requires forall i :: |run| - 1 <= i < |next| - 1 ==> !next[i].add.Added? && next[i].op != Deleting(true)
    ensures Orderly(next)
  {
    forall n | 0 <= n < |next| - 1 ensures !Overtakes(next[n], next[n + 1]) && !HalfDeleted(next[n], next[n + 1]) {
      if n < |run| - 1 { assert next[n] == run[n] && next[n + 1] == run[n + 1]; }
    }
  }

  /** An add on its way into its own persist. */
  lemma Persists() returns (run: seq<World>)
    ensures IsRun(run) && Orderly(run)
    ensures var m := Memory([Row()], None, 0, Some(IngestRecord(Op(), 1, 1)));
            run[|run| - 1] == Init().(created := true, memory := Some(m), op := Persisting(Prepare(m), true),
                                      add := Recorded(Op(), false))
  {
    run := Sent();
    run := Extend(run, AddRows);
    assert Incoming(Some(Op()), [7]) == [Row()] && [] + [Row()] == [Row()];
    run := Extend(run, AddRecord);
    run := Extend(run, AddPersist);
  }

  /** An operation that nothing disturbs: its caller is told of success, and its
      row is durable where it was declared. */
  lemma SomeAnswerIsDurable() returns (run: seq<World>)
    ensures IsRun(run) && Orderly(run)
    ensures var w := run[|run| - 1];
            Op() in w.answered && w.disk.present && Durable(w.disk) == [Row()]
  {
    var prepared := Persists();
    var m := prepared[|prepared| - 1].memory.value;
    var persisted := FileSteps(prepared, NO_DISK, m, true, STEPS);
    PersistMakesDurable(NO_DISK, m);
    AfterIs(NO_DISK, m, STEPS);
    run := Extend(persisted, PersistDone);
    StaysOrderly(prepared, run);
  }

  function Row(): Vector {
    Vector(7, Some(Origin(Op(), 0)))
  }

  /** The request is dropped while its row waits in the blocking pool; the retry
      is admitted. */
  lemma DropThenAdmitted() returns (run: seq<World>)
    ensures IsRun(run) && |run| == 5
    ensures run[|run| - 1] == Init().(created := true, memory := Some(Blank()), add := Checked(Some(Op()), [7]),
                                      late := [Chunk(Some(Op()), [7])])
  {
    run := Sent();
    run := Extend(run, DropRequest);
    run := Extend(run, AddStart(Some(Op()), [7]));
  }

  /** And then both rows are added. */
  lemma DropThenRetry() returns (run: seq<World>)
    ensures IsRun(run) && |run| == 7
    ensures run[|run| - 1] == Init().(created := true, memory := Some(Blank().(index := [Row(), Row()])),
                                      add := Added(Op()))
  {
    run := DropThenAdmitted();
    run := Extend(run, Land(0));
    assert Incoming(Some(Op()), [7]) == [Row()] && [] + [Row()] == [Row()];
    assert run[|run| - 1].memory.value.index == [Row()] && run[|run| - 1].late == [];
    run := Extend(run, AddRows);
    assert run[|run| - 1].memory.value.index == [Row(), Row()];
  }

  /** And the retry's caller is told of success, with the row twice in what every
      restart restores. */
  lemma RetryDoublesRows() returns (run: seq<World>)
    ensures IsRun(run)
    ensures var w := run[|run| - 1]; Op() in w.answered && Doubled(Durable(w.disk), Op())
  {
    run := DropThenRetry();
    run := Extend(run, AddRecord);
    run := Extend(run, AddPersist);
    var m := run[|run| - 1].memory.value;
    run := FileSteps(run, NO_DISK, m, true, STEPS);
    PersistMakesDurable(NO_DISK, m);
    AfterIs(NO_DISK, m, STEPS);
    run := Extend(run, PersistDone);
    TwiceIsDoubled();
  }

  lemma TwiceIsDoubled()
    ensures Doubled([Row(), Row()], Op())
  {
    var rows := [Row(), Row()];
    assert rows[0].origin == rows[1].origin == Some(Origin(Op(), 0));
  }

  /** A flush takes its snapshot, then an add puts its row in. */
  lemma SnapshotThenAdd() returns (run: seq<World>)
    ensures IsRun(run) && Overtaken(run[|run| - 1]) && run[|run| - 1].add == Added(Op())
    ensures run[|run| - 1].memory.value.generation == 0
  {
    run := Created();
    run := Extend(run, Flush);
    run := FileSteps(run, NO_DISK, Blank(), false, 4);
    AfterIs(NO_DISK, Blank(), 4);
    run := Extend(run, AddStart(Some(Op()), [7]));
    run := Extend(run, AddRows);
  }

  /** A flush that overlaps an add brings the generation level with the add's
      record without carrying its rows; a retry is told of success and the row is
      not on disk. */
  lemma OverlapLosesAnAnswer() returns (run: seq<World>)
    ensures IsRun(run)
    ensures var w := run[|run| - 1];
            && w.up && Op() in w.answered && w.disk.present
            && !Held(Durable(w.disk), Op()) && !Held(Durable(Apply(w, Crash).disk), Op())
  {
    run := SnapshotThenAdd();
    run := OvertakenLosesAnAnswer(run);
    RunKeepsInv(run, |run| - 1);
  }

  /** The second operation, one row behind the first. */
  function Op2(): Meta {
    Meta("b", 1, 1)
  }

  /** No flush at all: a dropped request's own persist has its snapshot, and the
      next operation's row goes in. */
  lemma DroppedPersistThenAdd() returns (run: seq<World>)
    ensures IsRun(run) && Overtaken(run[|run| - 1]) && run[|run| - 1].add == Added(Op2())
    ensures run[|run| - 1].memory.value.generation == 0
  {
    run := Sent();
    run := Extend(run, AddRows);
    run := Extend(run, AddRecord);
    run := Extend(run, AddPersist);
    var m := run[|run| - 1].memory.value;
    run := FileSteps(run, NO_DISK, m, true, 4);
    AfterIs(NO_DISK, m, 4);
    run := Extend(run, DropRequest);
    run := Extend(run, AddStart(Some(Op2()), [8]));
    run := Extend(run, AddRows);
  }

  lemma DropLosesAnAnswer() returns (run: seq<World>)
    ensures IsRun(run)
    ensures var w := run[|run| - 1]; w.up && Op2() in w.answered && w.disk.present && !Held(Durable(w.disk), Op2())
  {
    run := DroppedPersistThenAdd();
    run := OvertakenLosesAnAnswer(run);
    RunKeepsInv(run, |run| - 1);
  }

  /** A shard that can never be persisted again: every later persist is refused
      and a restart does not help. */
  lemma SomeShardIsBarred() returns (run: seq<World>)
    ensures IsRun(run) && Barred(run[|run| - 1]) && run[|run| - 1].memory.Some?
  {
    run := Created();
    run := StoppedPersistBars(run);
  }

  lemma Flushed() returns (run: seq<World>)
    ensures IsRun(run)
    ensures var w := run[|run| - 1];
            w.up && w.created && w.disk.present && w.memory == Some(Blank().(generation := 1))
            && w.op == NoOp && w.add == NoAdd
  {
    run := Created();
    run := Extend(run, Flush);
    run := FileSteps(run, NO_DISK, Blank(), false, STEPS);
    AfterIs(NO_DISK, Blank(), STEPS);
    run := Extend(run, PersistDone);
  }

  /** A deleted shard that comes back: the delete fails after its rename, and a
      later flush writes the shard again for every restart to find. */
  lemma SomeTombstoneReturns() returns (run: seq<World>, n: nat)
    ensures IsRun(run) && n < |run| && run[n].op == Deleting(true) && !run[n].disk.present
    ensures Restore(run[|run| - 1].disk).Loaded?
  {
    run := Flushed();
    run := Extend(run, DeleteStart);
    run := Extend(run, DeleteRename);
    n := |run| - 1;
    var tombstoned := run[n];
    run := Extend(run, DeleteFail);
    assert run[n] == tombstoned;
    var failed := run;
    run := FlushBringsBack(run);
    assert run[n] == failed[n];
  }
}
