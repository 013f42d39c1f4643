/** One shard over its whole life: retry-safe and plain adds, requests dropped
    at any moment, flushes, deletes, failures and a crash between any two file
    steps, in every interleaving that keeps persists serial. */
module StoreRuns {
  import opened Ranking
  import opened Rows
  import opened Store

  /** Who runs a persist: a plain flush, or the add that holds the lock. */
  datatype Op = NoOp | Persisting(p: Persist, forAdd: bool) | Deleting(tombstoned: bool)

  /** How far the add that holds the mutation lock has come. */
  datatype Add =
    | NoAdd
    | Checked(declared: Option<Meta>, vectors: seq<nat>)
    | Added(meta: Meta)
    | Recorded(meta: Meta, replay: bool)

  /** Rows handed to the blocking pool by a request that was dropped since. */
  datatype Chunk = Chunk(declared: Option<Meta>, vectors: seq<nat>)

  /** `answered` records the retry-safe operations whose callers were told of
      success; deleting the shard withdraws them. */
  datatype World = World(
    up: bool, created: bool, disk: Disk, memory: Option<Memory>, op: Op, add: Add, late: seq<Chunk>,
    answered: set<Meta>)

  datatype Step =
    | Create(contents: seq<nat>, labels: Option<seq<u64>>)
    | AddStart(meta: Option<Meta>, vectors: seq<nat>)
    | AddRows
    | AddRecord
    | AddPersist
    | DropRequest
    | Land(at: nat)
    | Flush
    | FileStep
    | Sweep(generation: nat, left: Option<GenDir>)
    | PersistDone
    | PersistFail
    | DeleteStart
    | DeleteRename
    | DeleteForget
    | DeleteFail
    | Crash
    | Restart

  function Init(): World {
    World(true, false, NO_DISK, None, NoOp, NoAdd, [], {})
  }

  /** A vector brought in by an add, tagged with its operation if it has one. */
  function Incoming(meta: Option<Meta>, vectors: seq<nat>): seq<Vector> {
    seq(|vectors|, j requires 0 <= j < |vectors| =>
      Vector(vectors[j], if meta.Some? then Some(Origin(meta.value, j)) else None))
  }

  ghost predicate Enabled(w: World, step: Step) {
    match step
    case Create(contents, labels) => w.up && !w.created && (labels.Some? ==> |labels.value| == |contents|)
    case AddStart(meta, vectors) =>
      && w.up && w.memory.Some? && w.memory.value.labels.None? && w.add == NoAdd && !w.op.Deleting?
      && (meta.Some? ==> meta.value.rows == |vectors|)
    case AddRows => w.memory.Some? && w.add.Checked?
    case AddRecord => w.memory.Some? && w.add.Added? && w.memory.value.generation + 1 < U64
    case AddPersist => w.memory.Some? && w.add.Recorded? && w.op == NoOp && w.memory.value.generation + 1 < U64
    case DropRequest => w.add != NoAdd
    case Land(at) => w.memory.Some? && at < |w.late|
    case Flush => w.memory.Some? && w.op == NoOp && w.memory.value.generation + 1 < U64
    case FileStep => w.memory.Some? && w.op.Persisting? && !Ended(w.op.p)
    case Sweep(generation, _) =>
      && w.op.Persisting? && w.op.p.stage == Counted
      && generation in w.disk.gens && Stale(generation, w.op.p.generation)
    case PersistDone => w.op.Persisting? && w.op.p.stage == Counted
    case PersistFail => w.op.Persisting? && w.op.p.stage != Counted
    case DeleteStart => w.up && w.op == NoOp && w.add == NoAdd
    case DeleteRename => w.op == Deleting(false) && w.disk.present
    case DeleteForget => w.op.Deleting? && !w.disk.present
    case DeleteFail => w.op.Deleting?
    case Crash => w.up
    case Restart => !w.up
  }

  /** The length an admitted operation leaves behind, going by the length read
      when it was checked. */
  function DeclaredEnd(meta: Meta): nat {
    meta.expectedLen + meta.rows
  }

  /** The decision `add` takes once it holds the lock. */
  function Admit(w: World, m: Memory, meta: Option<Meta>, vectors: seq<nat>): World {
    if meta.None? then w.(add := Checked(None, vectors))
    else if m.lastIngest.Some? && m.lastIngest.value.meta.operation == meta.value.operation then
      var record := m.lastIngest.value;
      if record.meta != meta.value || record.len != |m.index| then w
      else if m.generation == record.generation then w.(answered := w.answered + {meta.value})
      else w.(add := Recorded(meta.value, true))
    else if |m.index| != meta.value.expectedLen then w
    else w.(add := Checked(meta, vectors))
  }

  /** The client is gone and the request's future is dropped, the lock with it.
      What it gave to the blocking pool goes on: its rows will still be added, and
      its persist is from here on one nobody waits for. */
  function Drop(w: World): World {
    match w.add
    case NoAdd => w
    case Checked(declared, vectors) => w.(add := NoAdd, late := w.late + [Chunk(declared, vectors)])
    case Added(_) => w.(add := NoAdd)
    case Recorded(_, _) =>
      w.(add := NoAdd, op := if w.op.Persisting? then Persisting(w.op.p, false) else w.op)
  }

  /** A late chunk is added, whatever has happened since it was checked. */
  function Landed(m: Memory, c: Chunk): Memory {
    m.(index := m.index + Incoming(c.declared, c.vectors))
  }

  function Without(late: seq<Chunk>, at: nat): seq<Chunk>
    requires at < |late|
  {
    late[..at] + late[at + 1..]
  }

  function Apply(w: World, step: Step): World
    requires Enabled(w, step)
  {
    match step
    case Create(contents, labels) =>
      w.(created := true, memory := Some(Memory(Incoming(None, contents), labels, 0, None)))
    case AddStart(meta, vectors) => Admit(w, w.memory.value, meta, vectors)
    case AddRows =>
      var m := w.memory.value;
      w.(memory := Some(m.(index := m.index + Incoming(w.add.declared, w.add.vectors))),
         add := if w.add.declared.None? then NoAdd else Added(w.add.declared.value))
    case AddRecord =>
      var m := w.memory.value;
      w.(memory := Some(m.(lastIngest := Some(IngestRecord(w.add.meta, DeclaredEnd(w.add.meta), m.generation + 1)))),
         add := Recorded(w.add.meta, false))
    case AddPersist => w.(op := Persisting(Prepare(w.memory.value), true))
    case DropRequest => Drop(w)
    case Land(at) => w.(memory := Some(Landed(w.memory.value, w.late[at])), late := Without(w.late, at))
    case Flush => w.(op := Persisting(Prepare(w.memory.value), false))
    case FileStep =>
      var (disk, memory, p) := Advance(w.disk, w.memory.value, w.op.p);
      w.(disk := disk, memory := Some(memory), op := Persisting(p, w.op.forAdd))
    case Sweep(generation, left) =>
      // A removal may be cut short anywhere inside the directory.
      w.(disk := w.disk.(gens := if left.None? then w.disk.gens - {generation}
                                 else w.disk.gens[generation := left.value]))
    case PersistDone =>
      if w.op.forAdd && w.add.Recorded?
      then w.(op := NoOp, add := NoAdd, answered := w.answered + {w.add.meta})
      else w.(op := NoOp)
    case PersistFail => w.(op := NoOp, add := if w.op.forAdd then NoAdd else w.add)
    case DeleteStart => w.(op := Deleting(false))
    case DeleteRename => w.(disk := NO_DISK, op := Deleting(true), answered := {})
    case DeleteForget =>
      // A late chunk now goes into an index that nothing reaches.
      w.(memory := None, op := NoOp, late := [])
    case DeleteFail => w.(op := NoOp)
    case Crash => w.(up := false, memory := None, op := NoOp, add := NoAdd, late := [])
    case Restart =>
      match Restore(w.disk)
      case Absent => w.(up := true)
      case Corrupt => w
      case Loaded(m) => w.(up := true, memory := Some(m))
  }

  ghost predicate Next(w: World, t: World) {
    exists step :: Enabled(w, step) && t == Apply(w, step)
  }

  /** Step `n` of the run is one the machine can take. */
  ghost predicate NextAt(run: seq<World>, n: nat)
    requires n + 1 < |run|
  {
    Next(run[n], run[n + 1])
  }

  ghost predicate IsRun(run: seq<World>) {
    && run != [] && run[0] == Init()
    && forall n: nat :: n + 1 < |run| ==> NextAt(run, n)
  }

  lemma StepTaken(run: seq<World>, n: nat) returns (step: Step)
    requires IsRun(run) && n + 1 < |run|
    ensures Enabled(run[n], step) && run[n + 1] == Apply(run[n], step)
  {
    assert NextAt(run, n);
    step :| Enabled(run[n], step) && run[n + 1] == Apply(run[n], step);
  }

  // ---- What a restart would find ----

  /** The rows that survive a crash now. */
  function Durable(d: Disk): seq<Vector> {
    match Restore(d) case Loaded(m) => m.index case _ => []
  }

  /** No tagged row sits before the place its operation declared for it. */
  ghost predicate Tagged(rows: seq<Vector>) {
    forall i :: 0 <= i < |rows| && rows[i].origin.Some? ==>
      var o := rows[i].origin.value; o.meta.expectedLen + o.offset <= i && o.offset < o.meta.rows
  }

  /** The operation's rows, in order, from `at` on. */
  ghost predicate HoldsAt(rows: seq<Vector>, meta: Meta, at: nat) {
    && at + meta.rows <= |rows|
    && forall j :: 0 <= j < meta.rows ==> rows[at + j].origin == Some(Origin(meta, j))
  }

  /** The operation's rows where it declared them. */
  ghost predicate Holds(rows: seq<Vector>, meta: Meta) {
    HoldsAt(rows, meta, meta.expectedLen)
  }

  /** The operation's rows where it declared them or further on. */
  ghost predicate Held(rows: seq<Vector>, meta: Meta) {
    exists at :: meta.expectedLen <= at && HoldsAt(rows, meta, at)
  }

  lemma HeldInPrefix(a: seq<Vector>, b: seq<Vector>, meta: Meta)
    requires a <= b && Held(a, meta)
    ensures Held(b, meta)
  {
    var at :| meta.expectedLen <= at && HoldsAt(a, meta, at);
    assert HoldsAt(b, meta, at);
  }

  // ---- The invariant that needs no assumption ----

  ghost predicate RecordSound(rows: seq<Vector>, record: Option<IngestRecord>) {
    record.Some? ==>
      Held(rows, record.value.meta) && record.value.len == DeclaredEnd(record.value.meta)
  }

  ghost predicate MemorySound(m: Memory) {
    && Tagged(m.index) && RecordSound(m.index, m.lastIngest)
    && (m.labels.Some? ==> |m.labels.value| == |m.index|)
  }

  ghost predicate DiskSound(d: Disk) {
    && (!d.present ==> d == NO_DISK)
    && Restore(d) != Corrupt
    && (Restore(d).Loaded? ==> MemorySound(Restore(d).memory))
  }

  /** Memory is never behind the disk, and their generations are level or one
      apart: the disk is ahead only when a persist failed after the pointer. */
  ghost predicate Follows(d: Disk, m: Memory) {
    && Durable(d) <= m.index
    && (d.current.Some? ==> m.generation <= d.current.value <= m.generation + 1)
  }

  function Rank(s: Stage): nat {
    match s
    case Prepared => 0 case DirMade => 1 case TempMade => 2 case IngestRead => 3 case IndexWritten => 4
    case LabelsWritten => 5 case ManifestWritten => 6 case Activated => 7 case PointerWritten => 8
    case PointerActivated => 9 case Synced => 10 case Counted => 11 case Refused => 0
  }

  /** The snapshot a persist has taken so far. */
  ghost predicate SnapshotSound(d: Disk, m: Memory, p: Persist) {
    && (3 <= Rank(p.stage) ==> RecordSound(m.index, p.record))
    && (4 <= Rank(p.stage) ==>
          && p.temp.index.Some?
          && Durable(d) <= p.temp.index.value <= m.index
          && RecordSound(p.temp.index.value, p.record)
          && (m.labels.Some? ==> p.temp.index.value == m.index))
    && (5 <= Rank(p.stage) ==> p.temp.labels == p.labels)
    && (6 <= Rank(p.stage) ==>
          p.temp.manifest == Some(Manifest(p.generation, |p.temp.index.value|, p.temp.index.value, p.labels, p.record)))
  }

  ghost predicate PersistSound(d: Disk, m: Memory, p: Persist) {
    && p.labels == m.labels
    && p.generation == (if p.stage == Counted then m.generation else m.generation + 1)
    && (1 <= Rank(p.stage) ==> d.present)
    && (1 <= Rank(p.stage) < 7 ==> p.generation !in d.gens)
    && (7 <= Rank(p.stage) ==> p.generation in d.gens && d.gens[p.generation] == p.temp)
    && (1 <= Rank(p.stage) < 9 ==> d.current != Some(p.generation))
    && (9 <= Rank(p.stage) ==> d.current == Some(p.generation))
    && SnapshotSound(d, m, p)
  }

  /** Rows that passed the check, when the index was no longer than it is now. */
  ghost predicate ChunkSound(m: Memory, c: Chunk) {
    m.labels.None? && (c.declared.Some? ==>
      c.declared.value.expectedLen <= |m.index| && c.declared.value.rows == |c.vectors|)
  }

  ghost predicate LateSound(m: Memory, late: seq<Chunk>) {
    forall i :: 0 <= i < |late| ==> ChunkSound(m, late[i])
  }

  ghost predicate AddSound(m: Memory, add: Add) {
    match add
    case NoAdd => true
    case Checked(declared, vectors) => ChunkSound(m, Chunk(declared, vectors))
    case Added(meta) => m.labels.None? && Held(m.index, meta)
    case Recorded(meta, _) =>
      m.labels.None? && Held(m.index, meta) && m.lastIngest.Some? && m.lastIngest.value.meta == meta
  }

  ghost predicate Inv(w: World) {
    && DiskSound(w.disk)
    && (w.memory.Some? ==> w.up && w.created && MemorySound(w.memory.value) && Follows(w.disk, w.memory.value))
    && (w.memory.None? ==> w.add == NoAdd && !w.op.Persisting?)
    && (!w.up ==> w.op == NoOp && w.memory.None?)
    && (w.memory.Some? ==> AddSound(w.memory.value, w.add) && LateSound(w.memory.value, w.late))
    && (w.memory.None? ==> w.late == [])
    && (!w.created ==> w.disk == NO_DISK && w.memory.None?)
    && (w.op.Persisting? ==> PersistSound(w.disk, w.memory.value, w.op.p))
    && (w.op.Persisting? && w.op.forAdd ==> w.add.Recorded?)
    && (w.op.Persisting? && w.op.forAdd && w.add.Recorded? && 4 <= Rank(w.op.p.stage) ==>
          w.op.p.temp.index.Some? && Held(w.op.p.temp.index.value, w.add.meta))
    && (w.op.Deleting? ==> w.add == NoAdd && w.up && (w.op.tombstoned ==> !w.disk.present))
  }

  // ---- Steps ----

  lemma RecordGrows(a: seq<Vector>, b: seq<Vector>, record: Option<IngestRecord>)
    requires a <= b && RecordSound(a, record)
    ensures RecordSound(b, record)
  {
    if record.Some? { HeldInPrefix(a, b, record.value.meta); }
  }

  lemma IncomingHeld(rows: seq<Vector>, declared: Option<Meta>, vectors: seq<nat>)
    requires Tagged(rows)
    requires declared.Some? ==> declared.value.expectedLen <= |rows| && |vectors| == declared.value.rows
    ensures Tagged(rows + Incoming(declared, vectors))
    ensures declared.Some? ==> Held(rows + Incoming(declared, vectors), declared.value)
  {
    if declared.Some? { assert HoldsAt(rows + Incoming(declared, vectors), declared.value, |rows|); }
  }

  /** Appending rows behind a running persist's back does not disturb it. */
  lemma AppendKeepsPersist(d: Disk, m: Memory, p: Persist, index: seq<Vector>)
    requires PersistSound(d, m, p) && m.index <= index && m.labels.None?
    ensures PersistSound(d, m.(index := index), p)
  {
    if 3 <= Rank(p.stage) { RecordGrows(m.index, index, p.record); }
  }

  /** What an append leaves sound: memory, the disk behind it, and everything
      that still waits. */
  lemma AppendKeeps(w: World, c: Chunk)
    requires Inv(w) && w.memory.Some? && ChunkSound(w.memory.value, c)
    ensures var m, next := w.memory.value, Landed(w.memory.value, c);
            && MemorySound(next) && Follows(w.disk, next) && m.index <= next.index
            && (w.op.Persisting? ==> PersistSound(w.disk, next, w.op.p))
            && LateSound(next, w.late)
            && (c.declared.Some? ==> Held(next.index, c.declared.value))
  {
    var m := w.memory.value;
    var index := m.index + Incoming(c.declared, c.vectors);
    IncomingHeld(m.index, c.declared, c.vectors);
    RecordGrows(m.index, index, m.lastIngest);
    if w.op.Persisting? { AppendKeepsPersist(w.disk, m, w.op.p, index); }
  }

  lemma AddRowsKeeps(w: World)
    requires Inv(w) && Enabled(w, AddRows)
    ensures Inv(Apply(w, AddRows))
  {
    AppendKeeps(w, Chunk(w.add.declared, w.add.vectors));
  }

  lemma AddStays(m: Memory, add: Add, c: Chunk)
    requires AddSound(m, add)
    ensures AddSound(Landed(m, c), add)
  {
    if add.Added? || add.Recorded? { HeldInPrefix(m.index, Landed(m, c).index, add.meta); }
  }

  lemma LandKeeps(w: World, at: nat)
    requires Inv(w) && Enabled(w, Land(at))
    ensures Inv(Apply(w, Land(at)))
  {
    AppendKeeps(w, w.late[at]);
    AddStays(w.memory.value, w.add, w.late[at]);
  }

  lemma DropKeeps(w: World)
    requires Inv(w) && Enabled(w, DropRequest)
    ensures Inv(Apply(w, DropRequest))
  {
  }

  lemma AddRecordKeeps(w: World)
    requires Inv(w) && Enabled(w, AddRecord)
    ensures Inv(Apply(w, AddRecord))
  {
  }

  lemma AddStartKeeps(w: World, meta: Option<Meta>, vectors: seq<nat>)
    requires Inv(w) && Enabled(w, AddStart(meta, vectors))
    ensures Inv(Apply(w, AddStart(meta, vectors)))
  {
  }

  /** The snapshot steps touch nothing a restart reads. */
  lemma SnapshotStepKeeps(d: Disk, m: Memory, p: Persist)
    requires DiskSound(d) && MemorySound(m) && Follows(d, m) && PersistSound(d, m, p)
    requires 1 <= Rank(p.stage) < 6
    ensures var (disk, memory, next) := Advance(d, m, p); disk == d && memory == m && PersistSound(d, m, next)
  {
  }

  lemma PrepareStepKeeps(d: Disk, m: Memory, p: Persist)
    requires DiskSound(d) && MemorySound(m) && Follows(d, m) && PersistSound(d, m, p) && p.stage == Prepared
    ensures var (disk, memory, next) := Advance(d, m, p);
            memory == m && DiskSound(disk) && Follows(disk, m) && PersistSound(disk, m, next)
            && Restore(disk) == Restore(d)
  {
  }

  /** A complete temporary directory becomes the next generation. */
  lemma ActivateKeeps(d: Disk, m: Memory, p: Persist)
    requires DiskSound(d) && MemorySound(m) && Follows(d, m) && PersistSound(d, m, p)
    requires p.stage == ManifestWritten || p.stage == Activated
    ensures var (disk, memory, next) := Advance(d, m, p);
            memory == m && DiskSound(disk) && Follows(disk, m) && PersistSound(disk, m, next)
            && Restore(disk) == Restore(d)
  {
    var (disk, _, next) := Advance(d, m, p);
    assert disk.current == d.current;
    assert d.current.Some? ==> disk.gens[d.current.value] == d.gens[d.current.value];
    assert Restore(disk) == Restore(d);
  }

  lemma WrittenIsComplete(d: Disk, m: Memory, p: Persist)
    requires MemorySound(m) && PersistSound(d, m, p) && 6 <= Rank(p.stage)
    ensures Complete(p.temp, p.generation)
    ensures FromDir(p.temp, p.generation) == Memory(p.temp.index.value, m.labels, p.generation, p.record)
    ensures MemorySound(FromDir(p.temp, p.generation))
  {
  }

  /** CURRENT moves, always forward, to a directory that is complete. */
  lemma PointerKeeps(d: Disk, m: Memory, p: Persist)
    requires DiskSound(d) && MemorySound(m) && Follows(d, m) && PersistSound(d, m, p) && p.stage == PointerWritten
    ensures var (disk, memory, next) := Advance(d, m, p);
            memory == m && DiskSound(disk) && Follows(disk, m) && PersistSound(disk, m, next)
            && (d.current.Some? ==> d.current.value < disk.current.value) && Durable(d) <= Durable(disk)
  {
    WrittenIsComplete(d, m, p);
  }

  lemma FinishKeeps(d: Disk, m: Memory, p: Persist)
    requires DiskSound(d) && MemorySound(m) && Follows(d, m) && PersistSound(d, m, p)
    requires p.stage == PointerActivated || p.stage == Synced
    ensures var (disk, memory, next) := Advance(d, m, p);
            && disk == d && MemorySound(memory) && Follows(d, memory) && PersistSound(d, memory, next)
            && memory == m.(generation := memory.generation)
  {
  }

  /** Every file step of a persist. */
  lemma AdvanceKeeps(d: Disk, m: Memory, p: Persist)
    requires DiskSound(d) && MemorySound(m) && Follows(d, m) && PersistSound(d, m, p) && !Ended(p)
    ensures var (disk, memory, next) := Advance(d, m, p);
            && DiskSound(disk) && MemorySound(memory) && Follows(disk, memory) && PersistSound(disk, memory, next)
            && memory == m.(generation := memory.generation)
            && Durable(d) <= Durable(disk)
            && (d.current.Some? ==> disk.current.Some? && d.current.value <= disk.current.value)
  {
    match p.stage
    case Prepared => PrepareStepKeeps(d, m, p);
    case ManifestWritten => ActivateKeeps(d, m, p);
    case Activated => ActivateKeeps(d, m, p);
    case PointerWritten => PointerKeeps(d, m, p);
    case PointerActivated => FinishKeeps(d, m, p);
    case Synced => FinishKeeps(d, m, p);
    case _ => SnapshotStepKeeps(d, m, p);
  }

  lemma FileStepKeeps(w: World)
    requires Inv(w) && Enabled(w, FileStep)
    ensures Inv(Apply(w, FileStep))
  {
    AdvanceKeeps(w.disk, w.memory.value, w.op.p);
  }

  /** Clean-up, whole or cut short, leaves the current generation alone. */
  lemma SweepKeeps(w: World, generation: nat, left: Option<GenDir>)
    requires Inv(w) && Enabled(w, Sweep(generation, left))
    ensures Inv(Apply(w, Sweep(generation, left)))
    ensures Restore(Apply(w, Sweep(generation, left)).disk) == Restore(w.disk)
    ensures Apply(w, Sweep(generation, left)).disk.current == w.disk.current
  {
  }

  lemma RestartKeeps(w: World)
    requires Inv(w) && Enabled(w, Restart)
    ensures Inv(Apply(w, Restart)) && Apply(w, Restart).up
    ensures Apply(w, Restart).memory == match Restore(w.disk) case Loaded(m) => Some(m) case _ => None
  {
  }

  /** Every step, failures and crashes included, keeps the invariant. */
  lemma StepKeepsInv(w: World, step: Step)
    requires Inv(w) && Enabled(w, step)
    ensures Inv(Apply(w, step))
  {
    match step
    case Create(contents, labels) =>
      IncomingHeld([], None, contents);
      assert [] + Incoming(None, contents) == Incoming(None, contents);
    case AddStart(meta, vectors) => AddStartKeeps(w, meta, vectors);
    case AddRows => AddRowsKeeps(w);
    case AddRecord => AddRecordKeeps(w);
    case DropRequest => DropKeeps(w);
    case Land(at) => LandKeeps(w, at);
    case FileStep => FileStepKeeps(w);
    case Sweep(generation, left) => SweepKeeps(w, generation, left);
    case Restart => RestartKeeps(w);
    case _ =>
  }

  lemma {:induction false} RunKeepsInv(run: seq<World>, n: nat)
    requires IsRun(run) && n < |run|
    ensures Inv(run[n])
  {
    if n > 0 {
      RunKeepsInv(run, n - 1);
      var step := StepTaken(run, n - 1);
      StepKeepsInv(run[n - 1], step);
    }
  }
}
