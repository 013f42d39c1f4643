/** From durable shards to a durable table: every future member is flushed
    before its table is published, so every table entry names a generation. */
module Staging {
  import opened Ranking
  import opened Rows
  import opened Store
  import G = Registry
  import T = Topology
  import TR = TopologyRuns

  /** A shard to publish: the store of the node that holds it and its id there,
      the node's address and the number that stands for the id in a table. */
  datatype Member = Member(store: G.IndexStore, id: G.Id, address: T.Address, indexId: nat)

  /** The generation the member's node reports. */
  function Generation(m: Member): nat
    reads m.store
  {
    if m.id in m.store.generations then m.store.generations[m.id] else 0
  }

  /** The shard is registered at a generation that a restart of its node would
      restore, exactly as it is. */
  ghost predicate IsFlushed(m: Member)
    reads m.store
  {
    && m.store.View(m.id).Some? && 0 < Generation(m)
    && Restore(m.store.DiskAt(m.id)) == Loaded(m.store.View(m.id).value)
  }

  /** One flush; the other shards of the same node stay as they are. */
  method FlushOne(m: Member, failAt: nat) returns (ok: bool)
    requires m.store.Valid()
    modifies m.store
    ensures m.store.Valid() && (ok ==> IsFlushed(m))
    ensures forall other: Member :: other.store == m.store && other.id != m.id && old(IsFlushed(other)) ==>
              IsFlushed(other)
  {
    var flushed := m.store.Persist(m.id, failAt);
    ok := flushed.Done?;
  }

  /** `flush_before_durable_rebind`: each member in turn, stopping at the first
      failure; `failAt` says at which file step each persist would fail. */
  method FlushBeforeDurableRebind(members: seq<Member>, failAt: seq<nat>) returns (ok: bool)
    requires |failAt| == |members| && forall m :: m in members ==> m.store.Valid()
    modifies set m | m in members :: m.store
    ensures forall m :: m in members ==> m.store.Valid()
    ensures ok ==> forall m :: m in members ==>
              && IsFlushed(m) && m.store.View(m.id).Some? && 0 < m.store.View(m.id).value.generation
              && Restore(m.store.DiskAt(m.id)) == Loaded(m.store.View(m.id).value)
  {
    for n := 0 to |members|
      invariant forall m :: m in members ==> m.store.Valid()
      invariant forall k :: 0 <= k < n ==> IsFlushed(members[k])
    {
      assert members[n] in members;
      ok := FlushOne(members[n], failAt[n]);
      if !ok { return; }
    }
    ok := true;
  }

  /** What `configs_for_topology` learns of the members: the generation each
      node reports. */
  method Describe(members: seq<Member>) returns (staged: seq<T.Staged>)
    requires forall m :: m in members ==> IsFlushed(m)
    ensures |staged| == |members|
    ensures forall n :: 0 <= n < |members| ==>
              staged[n] == T.Staged(members[n].address, members[n].indexId, Generation(members[n]))
    ensures members != [] ==> TR.Flushed(staged)
  {
    staged := [];
    for n := 0 to |members|
      invariant |staged| == n
      invariant forall k :: 0 <= k < n ==>
                  staged[k] == T.Staged(members[k].address, members[k].indexId, Generation(members[k]))
    {
      assert members[n] in members;
      staged := staged + [T.Staged(members[n].address, members[n].indexId, Generation(members[n]))];
    }
    assert forall n :: 0 <= n < |members| ==> members[n] in members;
  }

  /** A durable publication's table, from flush to entries: if every flush works
      it meets the restart rule. */
  method DurableConfigs(members: seq<Member>, failAt: seq<nat>, previous: seq<T.ShardConfig>)
    returns (configs: Option<seq<T.ShardConfig>>)
    requires |failAt| == |members| && members != [] && TR.TableSound(previous)
    requires forall m :: m in members ==> m.store.Valid()
    modifies set m | m in members :: m.store
    ensures configs.Some? ==> TR.TableSound(configs.value) && |configs.value| == |members|
    ensures configs.Some? ==> forall n :: 0 <= n < |members| ==>
              var m, required := members[n], configs.value[n].requiredGeneration;
              && required.Some? && 0 < required.value && m.store.View(m.id).Some?
              && m.store.View(m.id).value.generation == required.value
              && Restore(m.store.DiskAt(m.id)) == Loaded(m.store.View(m.id).value)
  {
    var ok := FlushBeforeDurableRebind(members, failAt);
    if !ok { return None; }
    var staged := Describe(members);
    TR.ConfigsSound(previous, staged);
    assert forall n :: 0 <= n < |members| ==> members[n] in members;
    return Some(T.ConfigsFor(previous, staged));
  }
}
