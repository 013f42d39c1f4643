/** Durable shard generations: one shard's directory, what a restart makes of
    it, and every file step of a persist. */
module Store {
  import opened Ranking
  import opened Rows

  /** A retry-safe operation as its caller declares it. */
  datatype Meta = Meta(operation: string, expectedLen: nat, rows: nat)

  /** Which row of which operation a stored row is; no operation reads it. */
  datatype Origin = Origin(meta: Meta, offset: nat)

  datatype Vector = Vector(content: nat, origin: Option<Origin>)

  datatype IngestRecord = IngestRecord(meta: Meta, len: nat, generation: nat)

  /** A checksum is represented by the content it was taken over. */
  datatype Manifest = Manifest(
    generation: nat, rows: nat, index: seq<Vector>, labels: Option<seq<u64>>, lastIngest: Option<IngestRecord>)

  datatype GenDir = GenDir(index: Option<seq<Vector>>, labels: Option<seq<u64>>, manifest: Option<Manifest>)

  const EMPTY_DIR: GenDir := GenDir(None, None, None)

  /** A shard's directory. Temporary directories and pointer files that a crash
      leaves behind carry names nothing ever reads. */
  datatype Disk = Disk(present: bool, gens: map<nat, GenDir>, current: Option<nat>)

  const NO_DISK: Disk := Disk(false, map[], None)

  datatype Memory = Memory(
    index: seq<Vector>, labels: Option<seq<u64>>, generation: nat, lastIngest: Option<IngestRecord>)

  // ---- Restart ----

  datatype Restored = Absent | Corrupt | Loaded(memory: Memory)

  /** The directory holds everything its manifest promises. */
  predicate Complete(dir: GenDir, generation: nat) {
    && dir.manifest.Some? && dir.index.Some?
    && var m := dir.manifest.value;
       && m.generation == generation
       && dir.index.value == m.index && |m.index| == m.rows
       && (m.labels.Some? ==> dir.labels == m.labels && |m.labels.value| == m.rows)
  }

  function FromDir(dir: GenDir, generation: nat): Memory
    requires Complete(dir, generation)
  {
    var m := dir.manifest.value;
    Memory(m.index, m.labels, generation, m.lastIngest)
  }

  /** One shard in `restore_all`: only the generation CURRENT names, and only
      if it is complete. */
  function Restore(d: Disk): Restored {
    if !d.present || d.current.None? then Absent
    else if d.current.value !in d.gens || !Complete(d.gens[d.current.value], d.current.value) then Corrupt
    else Loaded(FromDir(d.gens[d.current.value], d.current.value))
  }

  /** A shard comes back exactly as its manifest describes it, and only if index
      and labels are what the manifest was written over; without a pointer there
      is nothing to bring back, and anything else is refused. */
  lemma RestoreIs(d: Disk, m: Memory)
    ensures Restore(d) == Absent <==> !d.present || d.current == None
    ensures Restore(d) == Loaded(m) <==>
              && d.present && d.current == Some(m.generation) && m.generation in d.gens
              && var dir := d.gens[m.generation];
                 && dir.index == Some(m.index)
                 && dir.manifest == Some(Manifest(m.generation, |m.index|, m.index, m.labels, m.lastIngest))
                 && (m.labels.Some? ==> dir.labels == m.labels && |m.labels.value| == |m.index|)
  {
    if d.current.Some? && d.current.value in d.gens && d.gens[d.current.value].manifest.Some? {
      var it := d.gens[d.current.value].manifest.value;
      assert it == Manifest(it.generation, it.rows, it.index, it.labels, it.lastIngest);
    }
  }

  // ---- Persist, one file step at a time ----

  datatype Stage =
    | Prepared | DirMade | TempMade | IngestRead | IndexWritten | LabelsWritten | ManifestWritten
    | Activated | PointerWritten | PointerActivated | Synced | Counted | Refused

  datatype Persist = Persist(
    stage: Stage, generation: nat, labels: Option<seq<u64>>, record: Option<IngestRecord>, temp: GenDir)

  function Prepare(m: Memory): Persist {
    Persist(Prepared, m.generation + 1, m.labels, None, EMPTY_DIR)
  }

  predicate Ended(p: Persist) {
    p.stage == Counted || p.stage == Refused
  }

  /** The next step, when nothing fails. */
  function Advance(d: Disk, m: Memory, p: Persist): (Disk, Memory, Persist) {
    match p.stage
    case Prepared =>
      (d.(present := true), m, p.(stage := if p.generation in d.gens then Refused else DirMade))
    case DirMade => (d, m, p.(stage := TempMade, temp := EMPTY_DIR))
    case TempMade => (d, m, p.(stage := IngestRead, record := m.lastIngest))
    case IngestRead => (d, m, p.(stage := IndexWritten, temp := p.temp.(index := Some(m.index))))
    case IndexWritten => (d, m, p.(stage := LabelsWritten, temp := p.temp.(labels := p.labels)))
    case LabelsWritten =>
      (d, m,
       if p.temp.index.None? then p
       else
         var index := p.temp.index.value;
         var manifest := Manifest(p.generation, |index|, index, p.labels, p.record);
         p.(stage := ManifestWritten, temp := p.temp.(manifest := Some(manifest))))
    case ManifestWritten => (d.(gens := d.gens[p.generation := p.temp]), m, p.(stage := Activated))
    case Activated => (d, m, p.(stage := PointerWritten))
    case PointerWritten => (d.(current := Some(p.generation)), m, p.(stage := PointerActivated))
    case PointerActivated => (d, m, p.(stage := Synced))
    case Synced => (d, m.(generation := p.generation), p.(stage := Counted))
    case Counted => (d, m, p)
    case Refused => (d, m, p)
  }

  /** The persist after `n` steps on an otherwise idle shard. */
  function After(d: Disk, m: Memory, n: nat): (Disk, Memory, Persist) {
    if n == 0 then (d, m, Prepare(m))
    else
      var (disk, memory, p) := After(d, m, n - 1);
      Advance(disk, memory, p)
  }

  const STEPS := 11

  /** What clean-up may remove: generations before the one preceding `current`. */
  predicate Stale(generation: nat, current: nat) {
    generation + 1 < current
  }

  function Swept(d: Disk, current: nat): Disk {
    d.(gens := map g | g in d.gens && !Stale(g, current) :: d.gens[g])
  }

  /** Clean-up after generation `current` keeps it, the one before it and
      anything later, as they are. */
  lemma SweptIs(d: Disk, current: nat)
    ensures Swept(d, current).present == d.present && Swept(d, current).current == d.current
    ensures forall g :: g in Swept(d, current).gens <==> g in d.gens && (g == current - 1 || g >= current)
    ensures forall g :: g in Swept(d, current).gens ==> Swept(d, current).gens[g] == d.gens[g]
  {
  }

  predicate Refusable(d: Disk, m: Memory) {
    m.generation + 1 in d.gens
  }

  /** The directory a persist of `m` writes. */
  function Written(m: Memory): GenDir {
    GenDir(Some(m.index), m.labels,
           Some(Manifest(m.generation + 1, |m.index|, m.index, m.labels, m.lastIngest)))
  }

  /** The file steps of an undisturbed persist, one by one. */
  lemma {:induction false} AfterIs(d: Disk, m: Memory, n: nat)
    requires !Refusable(d, m) && n <= STEPS
    ensures var (disk, memory, p) := After(d, m, n); var g := m.generation + 1;
            && disk == Disk(d.present || 1 <= n, if 7 <= n then d.gens[g := Written(m)] else d.gens,
                            if 9 <= n then Some(g) else d.current)
            && memory == (if n == 11 then m.(generation := g) else m)
            && p.generation == g && p.labels == m.labels && p.stage == StageAt(n)
            && (3 <= n ==> p.record == m.lastIngest)
            && p.temp == GenDir(if 4 <= n then Some(m.index) else None, if 5 <= n then m.labels else None,
                                if 6 <= n then Written(m).manifest else None)
  {
    if n > 0 { AfterIs(d, m, n - 1); }
  }

  function StageAt(n: nat): Stage
    requires n <= STEPS
  {
    if n == 0 then Prepared else if n == 1 then DirMade else if n == 2 then TempMade else if n == 3 then IngestRead
    else if n == 4 then IndexWritten else if n == 5 then LabelsWritten else if n == 6 then ManifestWritten
    else if n == 7 then Activated else if n == 8 then PointerWritten else if n == 9 then PointerActivated
    else if n == 10 then Synced else Counted
  }

  /** A persist that is not interrupted makes the shard restorable exactly as
      it is in memory; one that finds its directory taken changes nothing a
      restart sees. */
  lemma PersistMakesDurable(d: Disk, m: Memory)
    requires m.labels.Some? ==> |m.labels.value| == |m.index|
    ensures !Refusable(d, m) ==>
              var (disk, memory, p) := After(d, m, STEPS);
              p.stage == Counted && memory == m.(generation := m.generation + 1) && Restore(disk) == Loaded(memory)
              && Restore(Swept(disk, memory.generation)) == Loaded(memory)
    ensures Refusable(d, m) ==>
              var (disk, memory, p) := After(d, m, 1); p.stage == Refused && memory == m && disk == d.(present := true)
  {
    if !Refusable(d, m) {
      AfterIs(d, m, STEPS);
    } else {
      assert After(d, m, 0) == (d, m, Prepare(m));
    }
  }
}
