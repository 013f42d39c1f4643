/** The coordinator's shard table: its generation, the spare pool, the state
    file, and the operations that change them. */
module Topology {
  import opened Ranking
  import Rows

  type Address = string

  /** The text contains "://". */
  predicate HasScheme(a: Address) {
    3 <= |a| && ((a[0] == ':' && a[1] == '/' && a[2] == '/') || HasScheme(a[1..]))
  }

  lemma {:induction false} SchemeInside(a: Address, n: nat)
    requires n <= |a| && HasScheme(a[n..])
    ensures HasScheme(a)
    decreases n
  {
    if n == 0 {
      assert a[0..] == a;
    } else {
      assert a[1..][n - 1..] == a[n..];
      SchemeInside(a[1..], n - 1);
    }
  }

  lemma {:induction false} SchemeIs(a: Address)
    ensures HasScheme(a) <==> exists before: string, after: string :: a == before + "://" + after
  {
    if HasScheme(a) { var before, after := SchemeFound(a); }
    forall before: string, after: string | a == before + "://" + after ensures HasScheme(a) {
      assert a[|before|..] == "://" + after;
      SchemeInside(a, |before|);
    }
  }

  lemma {:induction false} SchemeFound(a: Address) returns (before: string, after: string)
    requires HasScheme(a)
    ensures a == before + "://" + after
  {
    if a[0] == ':' && a[1] == '/' && a[2] == '/' {
      before, after := "", a[3..];
    } else {
      before, after := SchemeFound(a[1..]);
      before := [a[0]] + before;
    }
  }

  /** A bare host:port gets the scheme the transport needs; a second
      application changes nothing. */
  function WithScheme(a: Address): (r: Address)
    ensures HasScheme(r) && (HasScheme(a) ==> r == a) && (!HasScheme(a) ==> r == "http://" + a)
  {
    if HasScheme(a) then a
    else
      var r := "http" + ("://" + a);
      assert r == "http://" + a;
      assert r[4..] == "://" + a;
      SchemeInside(r, 4);
      r
  }

  datatype ShardConfig = ShardConfig(
    address: Address, indexId: Option<nat>, replicas: seq<Address>, requiredGeneration: Option<nat>)

  /** `serves_address`: as its primary or as a replica. */
  predicate Serves(shard: ShardConfig, a: Address) {
    shard.address == a || a in shard.replicas
  }

  predicate AnyServes(shards: seq<ShardConfig>, a: Address) {
    exists i :: 0 <= i < |shards| && Serves(shards[i], a)
  }

  /** What a restart demands of a stored table. */
  predicate AllRequired(shards: seq<ShardConfig>) {
    forall i :: 0 <= i < |shards| ==> shards[i].requiredGeneration.Some?
  }

  // ---- The state file ----

  datatype StateFile = StateFile(generation: nat, shards: seq<ShardConfig>, spares: seq<Address>)

  /** Where an attempt to replace the file fails, if it does: before the rename
      makes it current, or after, in the directory sync. */
  datatype Fault = NoFault | BeforeRename | AfterRename

  /** `persist_topology`. */
  function Persist(file: Option<StateFile>, next: StateFile, fault: Fault): (r: (bool, Option<StateFile>))
    ensures r.0 ==> r.1 == Some(next)
    ensures r.1 == file || r.1 == Some(next)
  {
    if next.generation == 0 || next.shards == [] then (false, file)
    else match fault
      case NoFault => (true, Some(next))
      case BeforeRename => (false, file)
      case AfterRename => (false, Some(next))
  }

  /** `load_or_initialize`: an existing file wins over the startup table. */
  function LoadOrInitialize(file: Option<StateFile>, initial: seq<ShardConfig>, fault: Fault):
    (Option<StateFile>, Option<StateFile>)
  {
    match file
    case Some(f) => (if f.generation == 0 || f.shards == [] then None else Some(f), file)
    case None =>
      if initial == [] then (None, None)
      else
        var first := StateFile(1, initial, []);
        var (ok, now) := Persist(None, first, fault);
        (if ok then Some(first) else None, now)
  }

  // ---- The coordinator's memory ----

  datatype Binding = Binding(generation: nat, shards: seq<ShardConfig>)

  datatype Memory = Memory(
    generation: nat, shards: seq<ShardConfig>, spares: seq<Address>, pinned: Option<Binding>)

  datatype Refusal = TopologyMoved | GenerationOverflow | PersistFailed

  datatype Result<T> = Ok(value: T) | Err(refusal: Refusal)

  /** The spares that no shard of the new table uses. */
  function FreeSpares(spares: seq<Address>, shards: seq<ShardConfig>): seq<Address> {
    if spares == [] then []
    else
      var last := spares[|spares| - 1];
      FreeSpares(spares[..|spares| - 1], shards) + (if AnyServes(shards, last) then [] else [last])
  }

  /** `rebind_inner`: new generation, surviving spares, file, then memory. */
  function Rebind(durable: bool, m: Memory, file: Option<StateFile>, expected: Option<nat>, shards: seq<ShardConfig>,
                  fault: Fault): (Result<nat>, Memory, Option<StateFile>)
  {
    if expected.Some? && m.generation != expected.value then (Err(TopologyMoved), m, file)
    else if Rows.U64 <= m.generation + 1 then (Err(GenerationOverflow), m, file)
    else
      var next := m.generation + 1;
      var spares := FreeSpares(m.spares, shards);
      var (ok, now) := if durable then Persist(file, StateFile(next, shards, spares), fault) else (true, file);
      if ok then (Ok(next), Memory(next, shards, spares, None), now) else (Err(PersistFailed), m, now)
  }

  /** `register_node`, for an address that answered the dial-back. The result
      says whether the node already serves a shard. */
  function Register(durable: bool, m: Memory, file: Option<StateFile>, announced: Address, fault: Fault):
    (Result<bool>, Memory, Option<StateFile>)
  {
    var address := WithScheme(announced);
    if AnyServes(m.shards, address) then (Ok(true), m, file)
    else if address in m.spares then (Ok(false), m, file)
    else
      var spares := m.spares + [address];
      var (ok, now) :=
        if durable then Persist(file, StateFile(m.generation, m.shards, spares), fault) else (true, file);
      if ok then (Ok(false), m.(spares := spares), now) else (Err(PersistFailed), m, now)
  }

  // ---- Tables built from staged shards ----

  /** A shard just built and flushed, with the generation its node reports. */
  datatype Staged = Staged(address: Address, indexId: nat, generation: nat)

  /** The replicas of the first shard of `previous` at that address. */
  function ReplicasAt(previous: seq<ShardConfig>, a: Address): seq<Address> {
    if previous == [] then []
    else if previous[0].address == a then previous[0].replicas
    else ReplicasAt(previous[1..], a)
  }

  function ConfigFor(previous: seq<ShardConfig>, s: Staged): ShardConfig {
    var address := WithScheme(s.address);
    ShardConfig(address, Some(s.indexId), ReplicasAt(previous, address),
                if 0 < s.generation then Some(s.generation) else None)
  }

  /** `configs_for_topology`. */
  function ConfigsFor(previous: seq<ShardConfig>, staged: seq<Staged>): seq<ShardConfig> {
    seq(|staged|, i requires 0 <= i < |staged| => ConfigFor(previous, staged[i]))
  }

  /** A config names its index and the generation its node reported, and keeps
      the replicas of the first entry that had its address. */
  lemma {:induction false} ConfigIs(previous: seq<ShardConfig>, s: Staged, n: nat)
    requires n <= |previous| && forall i :: 0 <= i < n ==> previous[i].address != WithScheme(s.address)
    ensures var c := ConfigFor(previous, s);
            && c.address == WithScheme(s.address) && c.indexId == Some(s.indexId)
            && (c.requiredGeneration == if s.generation == 0 then None else Some(s.generation))
            && (n == |previous| ==> c.replicas == [])
            && (n < |previous| && previous[n].address == c.address ==> c.replicas == previous[n].replicas)
  {
    if 0 < n {
      var rest := previous[1..];
      assert forall i :: 0 <= i < n - 1 ==> rest[i] == previous[i + 1];
      ConfigIs(rest, s, n - 1);
    }
  }

  function Spliced(table: seq<ShardConfig>, at: nat, configs: seq<ShardConfig>): seq<ShardConfig>
    requires at < |table|
  {
    table[..at] + configs + table[at + 1..]
  }

  // ---- The spare pool ----

  ghost predicate NoRepeats(spares: seq<Address>) {
    forall i, j :: 0 <= i < j < |spares| ==> spares[i] != spares[j]
  }

  /** No duplicates, and no address that serves a shard. */
  ghost predicate PoolSound(spares: seq<Address>, shards: seq<ShardConfig>) {
    NoRepeats(spares) && forall a :: a in spares ==> HasScheme(a) && !AnyServes(shards, a)
  }

  /** Every address the table dials carries a scheme. */
  ghost predicate Dialable(shards: seq<ShardConfig>) {
    forall i :: 0 <= i < |shards| ==>
      HasScheme(shards[i].address) && forall a :: a in shards[i].replicas ==> HasScheme(a)
  }

  /** The survivors stand in the order they stood in. */
  lemma {:induction false} FreeSparesInOrder(spares: seq<Address>, shards: seq<ShardConfig>, i: nat, j: nat)
    requires i < j < |FreeSpares(spares, shards)|
    ensures var free := FreeSpares(spares, shards);
            exists x, y :: 0 <= x < y < |spares| && spares[x] == free[i] && spares[y] == free[j]
  {
    var free := FreeSpares(spares, shards);
    var init, last := spares[..|spares| - 1], |spares| - 1;
    var before := FreeSpares(init, shards);
    if j < |before| {
      FreeSparesInOrder(init, shards, i, j);
      var x, y :| 0 <= x < y < |init| && init[x] == before[i] && init[y] == before[j];
      assert spares[x] == free[i] && spares[y] == free[j];
    } else {
      FreeSparesAre(init, shards);
      assert before[i] in init;
      var x :| 0 <= x < |init| && init[x] == before[i];
      assert spares[x] == free[i] && spares[last] == free[j];
    }
  }

  lemma {:induction false} FreeSparesAre(spares: seq<Address>, shards: seq<ShardConfig>)
    ensures forall a :: a in FreeSpares(spares, shards) <==> a in spares && !AnyServes(shards, a)
    ensures NoRepeats(spares) ==> NoRepeats(FreeSpares(spares, shards))
  {
    if spares != [] {
      var init, last := spares[..|spares| - 1], spares[|spares| - 1];
      assert spares == init + [last];
      FreeSparesAre(init, shards);
      if NoRepeats(spares) {
        assert NoRepeats(init);
        assert last !in init;
      }
    }
  }

  /** A publication goes through exactly when nobody published since the expected
      generation, the counter has room and the table could be stored. Then the
      new table is visible as the next generation, the spares it serves leave the
      pool, and nothing stays cached. Otherwise nothing changes, but that a
      failure after the rename leaves the file ahead. */
  lemma PublicationIs(durable: bool, m: Memory, file: Option<StateFile>, expected: Option<nat>,
                      shards: seq<ShardConfig>, fault: Fault)
    ensures var (r, now, stored) := Rebind(durable, m, file, expected, shards, fault);
            && (r.Ok? <==>
                  && (expected.None? || expected.value == m.generation) && m.generation + 1 < Rows.U64
                  && (durable ==> shards != [] && fault == NoFault))
            && (r.Ok? ==>
                  && r.value == now.generation == m.generation + 1 && now.shards == shards && now.pinned == None
                  && (forall a :: a in now.spares <==> a in m.spares && !AnyServes(shards, a))
                  && stored == if durable then Some(StateFile(now.generation, shards, now.spares)) else file)
            && (r.Err? ==>
                  && now == m
                  && (r.refusal == TopologyMoved <==> expected.Some? && expected.value != m.generation)
                  && (stored == file ||
                      (r.refusal == PersistFailed && fault == AfterRename && stored.Some?
                       && stored.value.generation == m.generation + 1 && stored.value.shards == shards)))
  {
    FreeSparesAre(m.spares, shards);
  }

  /** The spares the new table leaves free, in order. */
  method SurvivingSpares(pool: seq<Address>, next: seq<ShardConfig>) returns (free: seq<Address>)
    ensures free == FreeSpares(pool, next)
  {
    free := [];
    for n := 0 to |pool|
      invariant free == FreeSpares(pool[..n], next)
    {
      assert pool[..n + 1][..n] == pool[..n];
      if !AnyServes(next, pool[n]) { free := free + [pool[n]]; }
    }
    assert pool[..|pool|] == pool;
  }

  /** The coordinator process and the state file it owns. */
  class Coordinator {
    const durable: bool
    var generation: nat
    var shards: seq<ShardConfig>
    var spares: seq<Address>
    var pinned: Option<Binding>
    var file: Option<StateFile>

    ghost function Now(): Memory
      reads this
    {
      Memory(generation, shards, spares, pinned)
    }

    constructor (durable: bool, m: Memory, file: Option<StateFile>)
      ensures this.durable == durable && Now() == m && this.file == file
    {
      this.durable := durable;
      generation, shards, spares, pinned := m.generation, m.shards, m.spares, m.pinned;
      this.file := file;
    }

    method RebindInner(expected: Option<nat>, next: seq<ShardConfig>, fault: Fault) returns (r: Result<nat>)
      modifies this
      ensures (r, Now(), file) == Rebind(durable, old(Now()), old(file), expected, next, fault)
      ensures r.Ok? ==>
                && r.value == generation == old(generation) + 1 && shards == next && pinned == None
                && (forall a :: a in spares <==> a in old(spares) && !AnyServes(next, a))
                && file == if durable then Some(StateFile(generation, shards, spares)) else old(file)
      ensures r.Err? ==>
                generation == old(generation) && shards == old(shards) && spares == old(spares) && pinned == old(pinned)
    {
      PublicationIs(durable, Now(), file, expected, next, fault);
      if expected.Some? && generation != expected.value { return Err(TopologyMoved); }
      if Rows.U64 <= generation + 1 { return Err(GenerationOverflow); }
      var free := SurvivingSpares(spares, next);
      if durable {
        var (ok, now) := Persist(file, StateFile(generation + 1, next, free), fault);
        file := now;
        if !ok { return Err(PersistFailed); }
      }
      generation := generation + 1;
      shards := next;
      spares := free;
      pinned := None;
      return Ok(generation);
    }

    method RegisterNode(announced: Address, fault: Fault) returns (r: Result<bool>)
      modifies this
      ensures (r, Now(), file) == Register(durable, old(Now()), old(file), announced, fault)
      ensures generation == old(generation) && shards == old(shards) && pinned == old(pinned)
      ensures r == Ok(true) <==> AnyServes(shards, WithScheme(announced))
      ensures r == Ok(false) ==> WithScheme(announced) in spares
      ensures r.Ok? ==> spares == old(spares) + if AnyServes(shards, WithScheme(announced))
                                                   || WithScheme(announced) in old(spares)
                                                then [] else [WithScheme(announced)]
      ensures r.Ok? ==>
                file == if durable && spares != old(spares) then Some(StateFile(generation, shards, spares))
                        else old(file)
      ensures r.Err? <==> durable && !AnyServes(shards, WithScheme(announced))
                          && WithScheme(announced) !in old(spares)
                          && (fault != NoFault || generation == 0 || shards == [])
      ensures r.Err? ==> spares == old(spares)
    {
      var address := WithScheme(announced);
      var member, n := false, 0;
      while n < |shards| && !member
        invariant n <= |shards| && unchanged(this)
        invariant member <==> AnyServes(shards[..n], address)
      {
        assert shards[..n + 1] == shards[..n] + [shards[n]];
        member := Serves(shards[n], address);
        assert member ==> Serves(shards[..n + 1][n], address);
        n := n + 1;
      }
      ServedByPrefix(shards, n, address);
      assert member || shards[..n] == shards;
      if member { return Ok(true); }
      if address !in spares {
        var next := spares + [address];
        if durable {
          var (ok, now) := Persist(file, StateFile(generation, shards, next), fault);
          file := now;
          if !ok { return Err(PersistFailed); }
        }
        spares := next;
      }
      return Ok(false);
    }
  }

  lemma ServedByPrefix(shards: seq<ShardConfig>, n: nat, a: Address)
    requires n <= |shards|
    ensures AnyServes(shards[..n], a) ==> AnyServes(shards, a)
  {
    if AnyServes(shards[..n], a) {
      var i :| 0 <= i < n && Serves(shards[..n][i], a);
      assert Serves(shards[i], a);
    }
  }
}
