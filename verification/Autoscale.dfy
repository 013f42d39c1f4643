/** One autoscaler tick, run without interference: plan, stage, splice in
    place, publish. Interleavings are the business of `TopologyRuns`. */
module Autoscale {
  import opened Ranking
  import opened Rows
  import opened Reshape
  import opened Growth
  import T = Topology
  import TR = TopologyRuns
  import SR = SplitRanking

  lemma {:induction false} RowCountsAre(shards: seq<Stored>)
    ensures |RowCounts(shards)| == |shards|
    ensures forall i :: 0 <= i < |shards| ==> RowCounts(shards)[i] == RowCount(shards[i])
  {
    if shards != [] { RowCountsAre(shards[..|shards| - 1]); }
  }

  lemma RowsFit(stores: seq<Stored>)
    requires SR.AllSound(stores)
    ensures |RowCounts(stores)| == |stores|
    ensures forall i :: 0 <= i < |stores| ==> RowCounts(stores)[i] == stores[i].index.rows
  {
    RowCountsAre(stores);
    forall i | 0 <= i < |stores| ensures RowCounts(stores)[i] == stores[i].index.rows { assert Sound(stores[i]); }
  }

  lemma {:induction false} PieceRows(s: Stored, counts: seq<u64>)
    requires Sound(s) && Sum(counts) <= s.index.rows
    ensures forall i :: 0 <= i < |counts| ==> Pieces(s, counts)[i].index.rows == counts[i]
  {
    if counts != [] { PieceRows(s, counts[..|counts| - 1]); }
  }

  lemma FirstOverIs(lens: seq<u64>, ceiling: u64, at: nat)
    requires at <= |lens| && (at < |lens| ==> ceiling < lens[at])
    requires forall i :: 0 <= i < at ==> lens[i] <= ceiling
    ensures FirstOver(lens, ceiling) == at
  {
  }

  lemma RowCountsConcat(a: seq<Stored>, b: seq<Stored>)
    ensures RowCounts(a + b) == RowCounts(a) + RowCounts(b)
  {
    RowCountsAre(a);
    RowCountsAre(b);
    RowCountsAre(a + b);
  }

  lemma PiecesCount(s: Stored, counts: seq<u64>)
    requires Sound(s) && Sum(counts) <= s.index.rows
    ensures SR.AllSound(Pieces(s, counts)) && RowCounts(Pieces(s, counts)) == counts
  {
    PiecesSound(s, counts);
    PieceRows(s, counts);
    RowCountsAre(Pieces(s, counts));
  }

  lemma SliceCounts(stores: seq<Stored>, at: nat)
    requires at < |stores|
    ensures |RowCounts(stores)| == |stores| && RowCounts(stores)[at] == RowCount(stores[at])
    ensures RowCounts(stores[..at]) == RowCounts(stores)[..at]
    ensures RowCounts(stores[at + 1..]) == RowCounts(stores)[at + 1..]
  {
    RowCountsAre(stores);
    PrefixCounts(stores, at);
    SuffixCounts(stores, at + 1);
  }

  lemma PrefixCounts(stores: seq<Stored>, n: nat)
    requires n <= |stores|
    ensures |RowCounts(stores)| == |stores| && RowCounts(stores[..n]) == RowCounts(stores)[..n]
  {
    RowCountsAre(stores);
    RowCountsAre(stores[..n]);
  }

  lemma SuffixCounts(stores: seq<Stored>, n: nat)
    requires n <= |stores|
    ensures |RowCounts(stores)| == |stores| && RowCounts(stores[n..]) == RowCounts(stores)[n..]
  {
    RowCountsAre(stores);
    RowCountsAre(stores[n..]);
  }

  /** In sizes, a published split is one step of `Growth.Tick`. */
  lemma SplitIsTick(stores: seq<Stored>, at: nat, ceiling: u64, spares: nat)
    requires SR.AllSound(stores) && at < |stores| && 0 < spares
    requires at == FirstOver(RowCounts(stores), ceiling)
    ensures var next := SR.Spliced(stores, at, Pieces(stores[at], Halves(RowCount(stores[at]))));
            SR.AllSound(next) && RowCounts(next) == Tick(RowCounts(stores), spares, ceiling).0
  {
    var halves := Halves(RowCount(stores[at]));
    var pieces := Pieces(stores[at], halves);
    SliceCounts(stores, at);
    PiecesCount(stores[at], halves);
    RowCountsConcat(stores[..at], pieces);
    RowCountsConcat(stores[..at] + pieces, stores[at + 1..]);
  }

  /** What the nodes report for the two staged indexes. */
  datatype StagedPair = StagedPair(keptId: nat, keptGeneration: nat, movedId: nat, movedGeneration: nat)

  /** One index on one node. */
  datatype Handle = Handle(address: T.Address, indexId: nat)

  /** How far a tick gets with its staged halves: the transfers fail, a flush or
      lookup of a staged index fails, or both are described. */
  datatype Staging = NotStaged | NotDescribed(keptId: nat, movedId: nat) | Described(pair: StagedPair)
  {
    /** The staged indexes, in target order. */
    function Handles(source: T.Address, spare: T.Address): seq<Handle> {
      match this
      case NotStaged => []
      case NotDescribed(kept, moved) => [Handle(source, kept), Handle(spare, moved)]
      case Described(pair) => [Handle(source, pair.keptId), Handle(spare, pair.movedId)]
    }
  }

  function ConfigsOf(table: seq<T.ShardConfig>, source: T.Address, spare: T.Address, pair: StagedPair):
    seq<T.ShardConfig>
  {
    T.ConfigsFor(table, [T.Staged(source, pair.keptId, pair.keptGeneration),
                         T.Staged(spare, pair.movedId, pair.movedGeneration)])
  }

  /** The shard a tick would split: the first over the ceiling, in a collection
      that is servable. */
  function Overfull(stores: seq<Stored>, ceiling: u64): (found: Option<nat>)
    requires SR.AllSound(stores)
    ensures found.Some? <==>
              Servable(stores) && exists i :: 0 <= i < |stores| && ceiling < stores[i].index.rows
    ensures found.Some? ==>
              && found.value < |stores| && ceiling < stores[found.value].index.rows
              && forall i :: 0 <= i < found.value ==> stores[i].index.rows <= ceiling
  {
    RowsFit(stores);
    var at := FirstOver(RowCounts(stores), ceiling);
    if Servable(stores) && at < |stores| then Some(at) else None
  }

  /** Bind the probed shards, then look along the table. */
  method FindOverfull(stores: seq<Stored>, ceiling: u64) returns (found: Option<nat>)
    requires SR.AllSound(stores)
    ensures found == Overfull(stores, ceiling)
  {
    RowCountsAre(stores);
    var bound := Bind(stores);
    if bound.Err? { return None; }
    var at := 0;
    while at < |stores| && stores[at].index.rows <= ceiling
      invariant at <= |stores|
      invariant forall i :: 0 <= i < at ==> RowCounts(stores)[i] <= ceiling
    {
      assert stores[at] in stores;
      at := at + 1;
    }
    assert at < |stores| ==> stores[at] in stores;
    FirstOverIs(RowCounts(stores), ceiling, at);
    if at == |stores| { return None; }
    return Some(at);
  }

  /** Stage the two halves and put them in the source's place. */
  method StageHalves(stores: seq<Stored>, at: nat, ghost ceiling: u64, ghost spares: nat) returns (next: seq<Stored>)
    requires SR.AllSound(stores) && Overfull(stores, ceiling) == Some(at) && 0 < spares
    ensures SR.AllSound(next) && SR.AllMoved(SR.Contents(stores), SR.Contents(next))
    ensures RowCounts(next) == Tick(RowCounts(stores), spares, ceiling).0
  {
    var staged, counts := StageSplit(stores[at], 2, []);
    next := SR.Spliced(stores, at, staged.value);
    SR.SpliceKeepsRows(stores, at, counts);
    SplitIsTick(stores, at, ceiling, spares);
  }

  /** The table a tick publishes. */
  function Grown(table: seq<T.ShardConfig>, at: nat, source: T.Address, spare: T.Address, pair: StagedPair):
    seq<T.ShardConfig>
    requires at < |table|
  {
    T.Spliced(table, at, ConfigsOf(table, source, spare, pair))
  }

  /** The conditional publication of a tick's table, over the generation it was
      planned from. */
  function Published(durable: bool, m: T.Memory, file: Option<T.StateFile>, at: nat, source: T.Address,
                     pair: StagedPair, fault: T.Fault): (T.Result<nat>, T.Memory, Option<T.StateFile>)
    requires at < |m.shards| && m.spares != []
  {
    T.Rebind(durable, m, file, Some(m.generation), Grown(m.shards, at, source, m.spares[0], pair), fault)
  }

  /** The drop loop: every staged index, in order. */
  method DropStaged(staged: seq<Handle>) returns (drops: seq<Handle>)
    ensures drops == staged
  {
    drops := [];
    for n := 0 to |staged|
      invariant drops == staged[..n]
    {
      drops := drops + [staged[n]];
    }
  }

  /** What a tick publishes: the source's node keeps the first half where the
      source was, the first spare serves the second half right behind it, every
      other shard stays, and the cache is empty. */
  lemma PublishedIs(durable: bool, m: T.Memory, file: Option<T.StateFile>, at: nat, source: T.Address,
                    pair: StagedPair, fault: T.Fault)
    requires at < |m.shards| && m.spares != []
    ensures var (r, now, _) := Published(durable, m, file, at, source, pair, fault);
            && (r.Ok? <==> m.generation + 1 < U64 && (durable ==> fault == T.NoFault))
            && (r.Err? ==> now == m)
            && (r.Ok? ==>
                  && now.generation == m.generation + 1 && now.pinned == None && |now.shards| == |m.shards| + 1
                  && now.shards[..at] == m.shards[..at] && now.shards[at + 2..] == m.shards[at + 1..]
                  && now.shards[at].address == T.WithScheme(source) && now.shards[at].indexId == Some(pair.keptId)
                  && now.shards[at + 1].address == T.WithScheme(m.spares[0])
                  && now.shards[at + 1].indexId == Some(pair.movedId))
  {
    T.PublicationIs(durable, m, file, Some(m.generation), Grown(m.shards, at, source, m.spares[0], pair), fault);
  }

  /** A tick has a shard to split and a live spare to split it onto. */
  predicate Ready(stores: seq<Stored>, ceiling: u64, spares: seq<T.Address>, spareLive: bool)
    requires SR.AllSound(stores)
  {
    Overfull(stores, ceiling).Some? && spares != [] && spareLive
  }

  /** `stores` are the indexes behind the table, `sources` the handle each
      answered at; `servesAgain` says whether the new collection came up. The
      drops are the indexes asked away: the abandoned targets, or the old source
      once the new collection serves, and otherwise nothing. */
  method AutoscaleTick(c: T.Coordinator, stores: seq<Stored>, sources: seq<Handle>, ceiling: u64,
                       spareLive: bool, staging: Staging, servesAgain: bool, fault: T.Fault)
    returns (split: bool, next: seq<Stored>, drops: seq<Handle>)
    requires SR.AllSound(stores) && |stores| == |sources| == |c.shards|
    modifies c
    ensures SR.AllSound(next) && SR.AllMoved(SR.Contents(stores), SR.Contents(next))
    ensures split ==> RowCounts(next) == Tick(RowCounts(stores), |old(c.spares)|, ceiling).0
    ensures !split ==> next == stores
    ensures split <==>
              && Overfull(stores, ceiling).Some? && old(c.spares) != [] && spareLive && staging.Described?
              && old(c.generation) + 1 < U64 && (c.durable ==> fault == T.NoFault)
    ensures split ==>
              var at := Overfull(stores, ceiling).value;
              && c.generation == old(c.generation) + 1 && c.pinned == None
              && |c.shards| == |stores| + 1
              && c.shards[..at] == old(c.shards)[..at] && c.shards[at + 2..] == old(c.shards)[at + 1..]
              && c.shards[at].address == T.WithScheme(sources[at].address)
              && c.shards[at + 1].address == T.WithScheme(old(c.spares)[0])
    ensures Ready(stores, ceiling, old(c.spares), spareLive) && staging.Described? ==>
              var at := Overfull(stores, ceiling).value;
              var p := Published(c.durable, old(c.Now()), old(c.file), at, sources[at].address, staging.pair, fault);
              split == p.0.Ok? && c.Now() == p.1 && c.file == p.2
    ensures !(Ready(stores, ceiling, old(c.spares), spareLive) && staging.Described?) ==>
              !split && c.Now() == old(c.Now()) && c.file == old(c.file)
    ensures !Ready(stores, ceiling, old(c.spares), spareLive) ==> drops == []
    ensures Ready(stores, ceiling, old(c.spares), spareLive) ==>
              var source := sources[Overfull(stores, ceiling).value];
              && (split ==> drops == if servesAgain then [source] else [])
              && (!split ==> drops == match staging
                                      case NotStaged => []
                                      case NotDescribed(kept, moved) =>
                                        [Handle(source.address, kept), Handle(old(c.spares)[0], moved)]
                                      case Described(pair) =>
                                        [Handle(source.address, pair.keptId), Handle(old(c.spares)[0], pair.movedId)])
  {
    split, next, drops := false, stores, [];
    SR.MovedItself(SR.Contents(stores));
    var generation, table := c.generation, c.shards;
    var found := FindOverfull(stores, ceiling);
    if found.None? || c.spares == [] || !spareLive { return; }
    var at, spare := found.value, c.spares[0];
    var source := sources[at];
    if staging.NotStaged? { return; }
    if staging.Described? {
      PublishedIs(c.durable, c.Now(), c.file, at, source.address, staging.pair, fault);
    }
    var staged := StageHalves(stores, at, ceiling, |c.spares|);
    if staging.Described? {
      var r := c.RebindInner(Some(generation), Grown(table, at, source.address, spare, staging.pair), fault);
      split := r.Ok?;
    }
    if !split {
      drops := DropStaged(staging.Handles(source.address, spare));
      return;
    }
    next := staged;
    if servesAgain { drops := [source]; }
  }

  // ---- Under interference ----

  /** The indexes behind a table. */
  function StoresOf(holds: T.ShardConfig -> Stored, table: seq<T.ShardConfig>): seq<Stored> {
    seq(|table|, i requires 0 <= i < |table| => holds(table[i]))
  }

  /** Whatever else goes on, a tick that publishes keeps the collection's rows,
      in order, provided its source is stable: the staged halves still are the
      halves of what the source holds. */
  lemma PublishedTickKeepsRows(run: seq<TR.World>, n: nat, fault: T.Fault, holds: T.ShardConfig -> Stored)
    requires TR.IsRun(run) && n < |run| && TR.TickShaped(run[n]) && TR.Enabled(run[n], TR.TickPublish(fault))
    requires var w := run[n];
             T.Rebind(true, w.up.value, w.file, Some(w.tick.plan.generation), TR.TickTable(w.tick), fault).0.Ok?
    requires SR.AllSound(StoresOf(holds, run[n].up.value.shards))
    requires var tick := run[n].tick; var source := holds(tick.plan.shards[tick.plan.at]);
             Sound(source) ==> StoresOf(holds, tick.configs) == Pieces(source, Halves(RowCount(source)))
    ensures var before, after := run[n].up.value.shards, TR.Apply(run[n], TR.TickPublish(fault)).up.value.shards;
            && SR.AllSound(StoresOf(holds, after))
            && SR.AllMoved(SR.Contents(StoresOf(holds, before)), SR.Contents(StoresOf(holds, after)))
  {
    TR.TickPublishesOverItsPlan(run, n, fault);
    var tick := run[n].tick;
    var at, table := tick.plan.at, tick.plan.shards;
    var stores := StoresOf(holds, table);
    assert stores[at] in stores;
    SR.SpliceKeepsRows(stores, at, Halves(RowCount(stores[at])));
    assert StoresOf(holds, T.Spliced(table, at, tick.configs)) == SR.Spliced(stores, at, StoresOf(holds, tick.configs));
  }
}
