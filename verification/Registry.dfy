/** The index registry: four maps keyed by shard id, and the data root they are
    persisted under and restored from. */
module Registry {
  import opened Ranking
  import opened Rows
  import opened Store

  type Id = string

  predicate IdChar(c: char) {
    'a' <= c <= 'z' || 'A' <= c <= 'Z' || '0' <= c <= '9' || c == '-' || c == '_' || c == '.'
  }

  predicate ValidId(id: Id) {
    id != "" && id != "." && id != ".." && forall i :: 0 <= i < |id| ==> IdChar(id[i])
  }

  /** Ids are one path component: ASCII letters, digits and three signs, and
      neither of the two names that lead elsewhere. */
  lemma ValidIdIs(id: Id)
    ensures ValidId(id) <==>
              && 0 < |id| && id !in [".", ".."]
              && forall i :: 0 <= i < |id| ==>
                   var code := id[i] as int;
                   65 <= code <= 90 || 97 <= code <= 122 || 48 <= code <= 57 || code in [45, 46, 95]
  {
    forall i | 0 <= i < |id|
      ensures var code := id[i] as int;
              IdChar(id[i]) <==> 65 <= code <= 90 || 97 <= code <= 122 || 48 <= code <= 57 || code in [45, 46, 95]
    {
      var code := id[i] as int;
      assert id[i] == code as char;
    }
  }

  /** Names that mark a directory as deleted. */
  const TOMBSTONE := ".deleted-"

  predicate Tombstone(id: Id) {
    TOMBSTONE <= id
  }

  lemma TombstoneIs(id: Id)
    ensures Tombstone(id) <==> 9 <= |id| && id[..9] == ".deleted-"
  {
  }

  /** What a restart makes of one directory that is not corrupt. */
  function Found(d: Disk): Option<Memory> {
    match Restore(d) case Loaded(m) => Some(m) case _ => None
  }

  datatype Failure = InvalidId | LabelCount | DuplicateId | UnknownId | GenerationOverflow | FileError | CorruptShard

  datatype Outcome<T> = Done(value: T) | Failed(failure: Failure)

  /** The file steps of one persist, up to the one that fails. */
  method WriteGeneration(d: Disk, generation: nat, index: seq<Vector>, table: Option<seq<u64>>,
                         lastIngest: Option<IngestRecord>, failAt: nat, ghost m: Memory)
    returns (disk: Disk, ok: bool)
    requires 0 < generation && m == Memory(index, table, generation - 1, lastIngest)
    requires table.Some? ==> |table.value| == |index|
    ensures var n := if failAt < STEPS then failAt else STEPS; var after := After(d, m, n);
            && disk == after.0 && ok == (after.2.stage == Counted)
            && after.1 == if ok then m.(generation := generation) else m
    ensures ok ==> Restore(Swept(disk, generation)) == Loaded(m.(generation := generation))
  {
    disk, ok := d, false;
    ghost var n := if failAt < STEPS then failAt else STEPS;
    if generation !in d.gens { AfterIs(d, m, n); }
    if failAt == 0 { return; }
    disk := disk.(present := true);
    if generation in disk.gens {
      RefusedStays(d, m, n);
      return;
    }
    if failAt <= 3 { return; }
    var dir := EMPTY_DIR.(index := Some(index));
    if failAt == 4 { return; }
    dir := dir.(labels := table);
    if failAt == 5 { return; }
    dir := dir.(manifest := Some(Manifest(generation, |index|, index, table, lastIngest)));
    if failAt == 6 { return; }
    disk := disk.(gens := disk.gens[generation := dir]);
    if failAt <= 8 { return; }
    disk := disk.(current := Some(generation));
    ok := STEPS <= failAt;
    if ok { CountedRestores(d, m, failAt); }
  }

  class IndexStore {
    var inner: map<Id, seq<Vector>>
    var labels: map<Id, seq<u64>>
    var generations: map<Id, nat>
    var ingests: map<Id, IngestRecord>
    var root: map<Id, Disk>

    /** What the four maps say of one shard. */
    ghost function View(id: Id): Option<Memory>
      reads this
    {
      if id in inner then
        Some(Memory(inner[id], if id in labels then Some(labels[id]) else None,
                    if id in generations then generations[id] else 0,
                    if id in ingests then Some(ingests[id]) else None))
      else None
    }

    ghost function DiskAt(id: Id): Disk
      reads this
    {
      if id in root then root[id] else NO_DISK
    }

    /** A label table, a generation or a record belongs to a registered shard. */
    ghost predicate Valid()
      reads this
    {
      && labels.Keys <= inner.Keys && generations.Keys <= inner.Keys && ingests.Keys <= inner.Keys
      && forall id :: id in labels ==> |labels[id]| == |inner[id]|
    }

    ghost predicate Empty()
      reads this
    {
      inner == map[] && labels == map[] && generations == map[] && ingests == map[]
    }

    constructor (root: map<Id, Disk>)
      ensures Valid() && Empty() && this.root == root
    {
      inner, labels, generations, ingests := map[], map[], map[], map[];
      this.root := root;
    }

    method InsertWithId(id: Id, index: seq<Vector>, table: Option<seq<u64>>, generation: nat) returns (r: Outcome<()>)
      requires Valid()
      modifies this`inner, this`labels, this`generations
      ensures Valid()
      ensures r.Done? <==> ValidId(id) && id !in old(inner) && (table.Some? ==> |table.value| == |index|)
      ensures r.Done? ==> View(id) == Some(Memory(index, table, generation, None))
      ensures r.Failed? ==> View(id) == old(View(id))
      ensures forall x :: x != id ==> View(x) == old(View(x))
    {
      if !ValidId(id) { return Failed(InvalidId); }
      if table.Some? && |table.value| != |index| { return Failed(LabelCount); }
      if id in inner { return Failed(DuplicateId); }
      inner := inner[id := index];
      if table.Some? { labels := labels[id := table.value]; }
      generations := generations[id := generation];
      return Done(());
    }

    method SetIngestRecord(id: Id, record: IngestRecord)
      requires Valid() && id in inner
      modifies this`ingests
      ensures Valid() && View(id) == Some(old(View(id)).value.(lastIngest := Some(record)))
      ensures forall x :: x != id ==> View(x) == old(View(x))
    {
      ingests := ingests[id := record];
    }

    /** `persist`, with the file step numbered `failAt` failing (none if it is
        past the last). Whatever step it stops at, the disk and the memory are
        those of `After`, and only a persist that ran to its end sweeps. */
    method Persist(id: Id, failAt: nat) returns (r: Outcome<nat>)
      requires Valid()
      modifies this`root, this`generations
      ensures Valid()
      ensures r.Done? ==> View(id).Some? && View(id).value.generation == r.value && 0 < r.value
      ensures r.Done? ==> Restore(DiskAt(id)) == Loaded(View(id).value)
      ensures forall x :: x != id ==> View(x) == old(View(x)) && DiskAt(x) == old(DiskAt(x))
      ensures old(View(id)).None? || U64 <= old(View(id)).value.generation + 1 ==>
                r.Failed? && root == old(root) && View(id) == old(View(id))
      ensures old(View(id)).Some? && old(View(id)).value.generation + 1 < U64 ==>
                var d, m := old(DiskAt(id)), old(View(id)).value;
                var n := if failAt < STEPS then failAt else STEPS;
                var (disk, memory, p) := After(d, m, n);
                && View(id) == Some(memory)
                && DiskAt(id) == (if p.stage == Counted then Swept(disk, memory.generation) else disk)
                && (r.Done? <==> p.stage == Counted) && (r.Done? ==> r.value == memory.generation)
    {
      if id !in inner { return Failed(UnknownId); }
      var table := if id in labels then Some(labels[id]) else None;
      var current := if id in generations then generations[id] else 0;
      if U64 <= current + 1 { return Failed(GenerationOverflow); }
      var before := if id in root then root[id] else NO_DISK;
      var lastIngest := if id in ingests then Some(ingests[id]) else None;
      ghost var m := View(id).value;
      var disk, ok := WriteGeneration(before, current + 1, inner[id], table, lastIngest, failAt, m);
      if !ok {
        if disk != before { root := root[id := disk]; }
        return Failed(FileError);
      }
      Settle(id, current + 1, Swept(disk, current + 1));
      return Done(current + 1);
    }

    /** The generation on disk becomes the one in memory. */
    method Settle(id: Id, generation: nat, disk: Disk)
      requires Valid() && View(id).Some?
      modifies this`root, this`generations
      ensures Valid()
      ensures View(id) == Some(old(View(id)).value.(generation := generation)) && DiskAt(id) == disk
      ensures forall x :: x != id ==> View(x) == old(View(x)) && DiskAt(x) == old(DiskAt(x))
    {
      generations := generations[id := generation];
      root := root[id := disk];
    }

    /** `delete`: the shard's directory becomes a tombstone in one rename and is
        removed, then the registry forgets it. A failure after the rename leaves
        the registry as it was and whatever is left under the tombstone's name. */
    method Delete(id: Id, tag: string, failBefore: bool, failAfter: bool, left: Disk) returns (r: Outcome<bool>)
      requires Valid() && ".deleted-" + id + "-" + tag !in root
      modifies this
      ensures Valid()
      ensures forall x :: x != id ==> View(x) == old(View(x))
      ensures forall x :: x != id && !Tombstone(x) ==> DiskAt(x) == old(DiskAt(x))
      ensures r.Done? <==> ValidId(id) && (id in old(root) ==> !failBefore && !failAfter)
      ensures r.Done? ==> View(id).None? && root == old(root) - {id}
      ensures r.Done? ==> r.value == (old(View(id)).Some? || id in old(root))
      ensures r.Failed? ==> View(id) == old(View(id))
      ensures r.Failed? ==> root == if ValidId(id) && !failBefore
                                    then (old(root) - {id})[".deleted-" + id + "-" + tag := left] else old(root)
    {
      if !ValidId(id) { return Failed(InvalidId); }
      var live := id in inner;
      var durable := false;
      if id in root {
        durable := true;
        if failBefore { return Failed(FileError); }
        var tombstone := TOMBSTONE + id + "-" + tag;
        root := (root - {id})[tombstone := root[id]];
        if failAfter {
          root := root[tombstone := left];
          return Failed(FileError);
        }
        root := root - {tombstone};
      }
      Forget(id);
      return Done(live || durable);
    }

    method Forget(id: Id)
      requires Valid()
      modifies this`inner, this`labels, this`generations, this`ingests
      ensures Valid() && View(id).None? && forall x :: x != id ==> View(x) == old(View(x))
    {
      labels := labels - {id};
      generations := generations - {id};
      ingests := ingests - {id};
      inner := inner - {id};
    }

    method RestoreOne(id: Id) returns (r: Outcome<()>)
      requires Valid() && id in root && View(id).None?
      modifies this`inner, this`labels, this`generations, this`ingests
      ensures Valid()
      ensures r.Done? <==> ValidId(id) && Restore(root[id]) != Corrupt
      ensures r.Done? ==> View(id) == match Restore(root[id]) case Loaded(m) => Some(m) case _ => None
      ensures forall x :: x != id ==> View(x) == old(View(x))
    {
      if !ValidId(id) { return Failed(InvalidId); }
      var restored := Restore(root[id]);
      if restored == Corrupt { return Failed(CorruptShard); }
      if restored.Loaded? {
        var m := restored.memory;
        var inserted := InsertWithId(id, m.index, m.labels, m.generation);
        if m.lastIngest.Some? { SetIngestRecord(id, m.lastIngest.value); }
      }
      return Done(());
    }

    /** The root that was found, all of it but `todo` gone through. */
    ghost predicate SoFar(found: map<Id, Disk>, todo: set<Id>)
      reads this
    {
      && Valid() && todo <= found.Keys
      && root == (map id | id in found && (id in todo || !Tombstone(id)) :: found[id])
      && forall id :: View(id) == if id in found && id !in todo && !Tombstone(id) then Found(found[id]) else None
    }

    method RestoreNext(id: Id, ghost found: map<Id, Disk>, ghost todo: set<Id>) returns (r: Outcome<()>)
      requires SoFar(found, todo) && id in todo
      modifies this
      ensures r.Done? <==> Tombstone(id) || (ValidId(id) && Restore(found[id]) != Corrupt)
      ensures r.Done? ==> SoFar(found, todo - {id})
      ensures r.Failed? ==> Valid() && root == old(root)
    {
      assert found[id] == root[id];
      if Tombstone(id) {
        root := root - {id};
        return Done(());
      }
      r := RestoreOne(id);
    }

    /** Every directory under the root, or the first problem; tombstones are
        removed, whatever is in them, and nothing else is. */
    method RestoreAll() returns (r: Outcome<()>)
      requires Valid() && Empty()
      modifies this
      ensures Valid()
      ensures r.Done? <==>
                forall id :: id in old(root) && !Tombstone(id) ==> ValidId(id) && Restore(old(root)[id]) != Corrupt
      ensures r.Done? ==> root == map id | id in old(root) && !Tombstone(id) :: old(root)[id]
      ensures r.Done? ==>
                forall id :: View(id) == match Restore(DiskAt(id)) case Loaded(m) => Some(m) case _ => None
      ensures forall id :: !Tombstone(id) ==> DiskAt(id) == old(DiskAt(id))
    {
      var todo := root.Keys;
      ghost var found := root;
      while todo != {}
        invariant SoFar(found, todo)
        invariant forall id :: id in found && id !in todo && !Tombstone(id) ==>
                    ValidId(id) && Restore(found[id]) != Corrupt
        decreases |todo|
      {
        var id :| id in todo;
        var restored := RestoreNext(id, found, todo);
        if restored.Failed? { return restored; }
        todo := todo - {id};
      }
      return Done(());
    }
  }

  lemma {:induction false} RefusedStays(d: Disk, m: Memory, n: nat)
    requires Refusable(d, m) && 0 < n
    ensures After(d, m, n) == (d.(present := true), m, Prepare(m).(stage := Refused))
  {
    if n == 1 {
      assert After(d, m, 0) == (d, m, Prepare(m));
    } else {
      RefusedStays(d, m, n - 1);
    }
  }

  /** A persist that runs to its end leaves what memory holds to be restored. */
  lemma CountedRestores(d: Disk, m: Memory, failAt: nat)
    requires m.labels.Some? ==> |m.labels.value| == |m.index|
    requires After(d, m, if failAt < STEPS then failAt else STEPS).2.stage == Counted
    ensures var (disk, memory, _) := After(d, m, STEPS);
            STEPS <= failAt && memory == m.(generation := m.generation + 1)
            && Restore(Swept(disk, memory.generation)) == Loaded(memory)
  {
    var n := if failAt < STEPS then failAt else STEPS;
    if Refusable(d, m) {
      if 0 < n { RefusedStays(d, m, n); }
    } else {
      AfterIs(d, m, n);
      PersistMakesDurable(d, m);
    }
  }
}
