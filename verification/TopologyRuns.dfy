/** A coordinator with a state file, under every interleaving of publishes,
    registrations, bindings, an autoscaler tick, persist failures and crashes. */
module TopologyRuns {
  import opened Ranking
  import Rows
  import opened Topology

  /** A tick plans against one generation, then picks a spare, then stages. */
  datatype Plan = Plan(generation: nat, shards: seq<ShardConfig>, at: nat, source: Address)

  datatype Tick =
    | Idle
    | Planned(plan: Plan)
    | Aimed(plan: Plan, spare: Address)
    | Ready(plan: Plan, spare: Address, configs: seq<ShardConfig>)

  /** `published` records every table that has been visible, by generation. */
  datatype World = World(
    up: Option<Memory>, file: Option<StateFile>, binds: seq<Binding>, tick: Tick,
    published: map<nat, seq<ShardConfig>>)

  datatype Step =
    | Boot(initial: seq<ShardConfig>, fault: Fault)
    | Crash
    | Publish(seenAt: nat, staged: seq<Staged>, fault: Fault)
    | RegisterNode(announced: Address, fault: Fault)
    | BindStart
    | BindFinish(n: nat, bound: bool)
    | TickPlan(at: nat, source: Address)
    | TickAim
    | TickStage(kept: Staged, moved: Staged)
    | TickPublish(fault: Fault)
    | TickAbandon

  function Init(): World {
    World(None, None, [], Idle, map[])
  }

  function Drop<T>(s: seq<T>, n: nat): seq<T>
    requires n < |s|
  {
    s[..n] + s[n + 1..]
  }

  lemma DropIs<T>(before: seq<T>, x: T, after: seq<T>)
    ensures Drop(before + [x] + after, |before|) == before + after
  {
  }

  /** Shards reach a durable table only after a flush, so their nodes report a
      generation above 0. */
  ghost predicate Flushed(staged: seq<Staged>) {
    staged != [] && forall i :: 0 <= i < |staged| ==> 0 < staged[i].generation
  }

  ghost predicate Enabled(w: World, step: Step) {
    match step
    case Boot(initial, _) => w.up.None? && Dialable(initial)
    case Crash => true
    case Publish(seenAt, staged, _) => w.up.Some? && seenAt in w.published && Flushed(staged)
    case RegisterNode(_, _) => w.up.Some?
    case BindStart => w.up.Some?
    case BindFinish(n, _) => w.up.Some? && n < |w.binds|
    case TickPlan(at, source) =>
      w.up.Some? && w.tick.Idle? && at < |w.up.value.shards| && Serves(w.up.value.shards[at], source)
    case TickAim => w.up.Some? && w.tick.Planned? && w.up.value.spares != []
    case TickStage(kept, moved) =>
      && w.up.Some? && w.tick.Aimed? && Flushed([kept, moved])
      && kept.address == w.tick.plan.source && moved.address == w.tick.spare
    case TickPublish(_) => w.up.Some? && w.tick.Ready?
    case TickAbandon => true
  }

  function Seen(w: World, m: Memory, file: Option<StateFile>): World {
    w.(up := Some(m), file := file, published := w.published[m.generation := m.shards])
  }

  function Rebound(w: World, m: Memory, expected: Option<nat>, shards: seq<ShardConfig>, fault: Fault): World {
    var (_, now, file) := Rebind(true, m, w.file, expected, shards, fault);
    Seen(w, now, file)
  }

  function Announced(w: World, announced: Address, fault: Fault): World
    requires w.up.Some?
  {
    var (_, now, file) := Register(true, w.up.value, w.file, announced, fault);
    w.(up := Some(now), file := file)
  }

  function TickTable(tick: Tick): seq<ShardConfig>
    requires tick.Ready? && tick.plan.at < |tick.plan.shards|
  {
    Spliced(tick.plan.shards, tick.plan.at, tick.configs)
  }

  function Started(w: World, initial: seq<ShardConfig>, fault: Fault): World {
    var (loaded, file) := LoadOrInitialize(w.file, initial, fault);
    if loaded.None? || !AllRequired(loaded.value.shards) then w.(file := file)
    else Seen(w, Memory(loaded.value.generation, loaded.value.shards, loaded.value.spares, None), file)
  }

  ghost predicate TickShaped(w: World) {
    !w.tick.Idle? ==> w.tick.plan.at < |w.tick.plan.shards|
  }

  function Apply(w: World, step: Step): World
    requires Enabled(w, step) && TickShaped(w)
  {
    match step
    case Boot(initial, fault) => Started(w, initial, fault)
    case Crash => w.(up := None, binds := [], tick := Idle)
    case Publish(seenAt, staged, fault) =>
      Rebound(w, w.up.value, None, ConfigsFor(w.published[seenAt], staged), fault)
    case RegisterNode(announced, fault) =>
      Announced(w, announced, fault)
    case BindStart => w.(binds := w.binds + [Binding(w.up.value.generation, w.up.value.shards)])
    case BindFinish(n, bound) =>
      var t := w.(binds := Drop(w.binds, n));
      if bound then t.(up := Some(w.up.value.(pinned := Some(w.binds[n])))) else t
    case TickPlan(at, source) =>
      w.(tick := Planned(Plan(w.up.value.generation, w.up.value.shards, at, source)))
    case TickAim => w.(tick := Aimed(w.tick.plan, w.up.value.spares[0]))
    case TickStage(kept, moved) =>
      w.(tick := Ready(w.tick.plan, w.tick.spare, ConfigsFor(w.up.value.shards, [kept, moved])))
    case TickPublish(fault) =>
      Rebound(w, w.up.value, Some(w.tick.plan.generation), TickTable(w.tick), fault).(tick := Idle)
    case TickAbandon => w.(tick := Idle)
  }

  /** An announced node is known from then on, if it can be written down: in the
      pool, or as a member already. */
  lemma AnnouncedNodeIsKnown(w: World, announced: Address)
    requires w.up.Some? && 0 < w.up.value.generation && w.up.value.shards != []
    ensures var t, address := Announced(w, announced, NoFault), WithScheme(announced);
            && t.up.Some? && (AnyServes(t.up.value.shards, address) || address in t.up.value.spares)
            && t.up.value.shards == w.up.value.shards && t.up.value.generation == w.up.value.generation
            && t.up.value.pinned == w.up.value.pinned
            && (t.up.value.spares != w.up.value.spares ==>
                  t.file == Some(StateFile(t.up.value.generation, t.up.value.shards, t.up.value.spares)))
  {
  }

  // ---- The invariant ----

  ghost predicate TableSound(shards: seq<ShardConfig>) {
    shards != [] && AllRequired(shards) && Dialable(shards)
  }

  ghost predicate PublishedSound(published: map<nat, seq<ShardConfig>>) {
    forall g :: g in published ==> TableSound(published[g])
  }

  /** The file is never behind what has been seen, and agrees where it is level. */
  ghost predicate FileInv(file: StateFile, published: map<nat, seq<ShardConfig>>) {
    && 0 < file.generation && file.shards != [] && Dialable(file.shards)
    && PoolSound(file.spares, file.shards)
    && (published != map[] ==> AllRequired(file.shards))
    && (forall g :: g in published ==> g <= file.generation)
    && (file.generation in published ==> published[file.generation] == file.shards)
  }

  ghost predicate MemoryInv(m: Memory, file: StateFile, published: map<nat, seq<ShardConfig>>) {
    && m.generation in published && published[m.generation] == m.shards
    && (forall g :: g in published ==> g <= m.generation)
    && m.generation <= file.generation <= m.generation + 1
    && PoolSound(m.spares, m.shards)
    && (forall a :: a in m.spares ==> a in file.spares || AnyServes(file.shards, a))
    && (m.pinned.Some? ==> WasPublished(published, m.pinned.value))
  }

  ghost predicate WasPublished(published: map<nat, seq<ShardConfig>>, b: Binding) {
    b.generation in published && published[b.generation] == b.shards
  }

  /** While the planned generation is current, the spare is still a spare. */
  ghost predicate TickInv(tick: Tick, m: Memory, published: map<nat, seq<ShardConfig>>)
    requires !tick.Idle?
  {
    && WasPublished(published, Binding(tick.plan.generation, tick.plan.shards))
    && tick.plan.at < |tick.plan.shards| && Serves(tick.plan.shards[tick.plan.at], tick.plan.source)
    && (!tick.Planned? ==> m.generation == tick.plan.generation ==> tick.spare in m.spares)
    && (tick.Ready? ==> |tick.configs| == 2 && TableSound(tick.configs))
    && (tick.Ready? && m.generation == tick.plan.generation ==>
          PairFor(tick.plan.shards, tick.plan.source, tick.spare, tick.configs))
  }

  ghost predicate Inv(w: World) {
    && PublishedSound(w.published)
    && (w.file.None? ==> w.up.None? && w.published == map[])
    && (w.file.Some? ==> FileInv(w.file.value, w.published))
    && (w.up.Some? ==> MemoryInv(w.up.value, w.file.value, w.published))
    && (w.up.None? ==> w.binds == [] && w.tick.Idle?)
    && (forall n :: 0 <= n < |w.binds| ==> WasPublished(w.published, w.binds[n]))
    && (!w.tick.Idle? ==> TickInv(w.tick, w.up.value, w.published))
  }

  // ---- Facts about tables ----

  lemma {:induction false} ReplicasComeFrom(previous: seq<ShardConfig>, a: Address)
    ensures forall x :: x in ReplicasAt(previous, a) ==> AnyServes(previous, x)
    ensures Dialable(previous) ==> forall x :: x in ReplicasAt(previous, a) ==> HasScheme(x)
  {
    if previous != [] {
      var rest := previous[1..];
      forall i | 0 <= i < |rest| ensures rest[i] == previous[i + 1] { }
      ReplicasComeFrom(rest, a);
      forall x | x in ReplicasAt(previous, a) ensures AnyServes(previous, x) {
        if previous[0].address == a {
          assert Serves(previous[0], x);
        } else {
          assert AnyServes(rest, x);
          var i :| 0 <= i < |rest| && Serves(rest[i], x);
          assert Serves(previous[i + 1], x);
        }
      }
      if Dialable(previous) { assert Dialable(rest); }
    }
  }

  lemma ConfigsSound(previous: seq<ShardConfig>, staged: seq<Staged>)
    requires Dialable(previous) && Flushed(staged)
    ensures TableSound(ConfigsFor(previous, staged))
  {
    var configs := ConfigsFor(previous, staged);
    forall i | 0 <= i < |configs|
      ensures configs[i].requiredGeneration.Some? && HasScheme(configs[i].address)
      ensures forall a :: a in configs[i].replicas ==> HasScheme(a)
    {
      ReplicasComeFrom(previous, configs[i].address);
    }
  }

  /** What the two staged configs are worth while the plan is current: they
      serve the source's node and the spare, and beyond them only addresses
      that already served. */
  ghost predicate PairFor(shards: seq<ShardConfig>, source: Address, spare: Address, configs: seq<ShardConfig>) {
    && |configs| == 2 && configs[0].address == source && configs[1].address == spare
    && forall a :: AnyServes(configs, a) ==> a == spare || AnyServes(shards, a)
  }

  lemma PairIsFor(shards: seq<ShardConfig>, at: nat, source: Address, spare: Address, kept: Staged, moved: Staged)
    requires Dialable(shards) && at < |shards| && Serves(shards[at], source) && HasScheme(spare)
    requires kept.address == source && moved.address == spare
    ensures PairFor(shards, source, spare, ConfigsFor(shards, [kept, moved]))
  {
    var configs := ConfigsFor(shards, [kept, moved]);
    assert HasScheme(source);
    ReplicasComeFrom(shards, source);
    ReplicasComeFrom(shards, spare);
    assert AnyServes(shards, source);
    forall a | AnyServes(configs, a) ensures a == spare || AnyServes(shards, a) {
      var i :| 0 <= i < |configs| && Serves(configs[i], a);
    }
  }

  lemma SplicedSound(table: seq<ShardConfig>, at: nat, configs: seq<ShardConfig>)
    requires TableSound(table) && TableSound(configs) && at < |table|
    ensures TableSound(Spliced(table, at, configs))
  {
    var next := Spliced(table, at, configs);
    forall i | 0 <= i < |next| ensures next[i] in table || next[i] in configs { }
  }

  lemma SplicedServes(table: seq<ShardConfig>, at: nat, configs: seq<ShardConfig>, a: Address)
    requires at < |table| && AnyServes(Spliced(table, at, configs), a)
    ensures AnyServes(table, a) || AnyServes(configs, a)
  {
    var next := Spliced(table, at, configs);
    var i :| 0 <= i < |next| && Serves(next[i], a);
    if i < at { assert Serves(table[i], a); }
    else if i < at + |configs| { assert Serves(configs[i - at], a); }
    else { assert Serves(table[i - |configs| + 1], a); }
  }

  // ---- Steps ----

  lemma PoolAfterRebind(m: Memory, shards: seq<ShardConfig>)
    requires PoolSound(m.spares, m.shards)
    ensures PoolSound(FreeSpares(m.spares, shards), shards)
  {
    FreeSparesAre(m.spares, shards);
  }

  lemma RebindFails(w: World, expected: Option<nat>, shards: seq<ShardConfig>, fault: Fault)
    requires Inv(w) && w.up.Some? && TableSound(shards) && PoolSound(FreeSpares(w.up.value.spares, shards), shards)
    requires forall a :: a in FreeSpares(w.up.value.spares, shards) <==>
                         a in w.up.value.spares && !AnyServes(shards, a)
    requires Rebind(true, w.up.value, w.file, expected, shards, fault).0.Err?
    ensures Inv(Rebound(w, w.up.value, expected, shards, fault))
    ensures Rebind(true, w.up.value, w.file, expected, shards, fault).1 == w.up.value
  {
    var m := w.up.value;
    assert w.published[m.generation := m.shards] == w.published;
  }

  lemma ReboundIs(w: World, expected: Option<nat>, shards: seq<ShardConfig>, fault: Fault)
    requires w.up.Some? && Rebind(true, w.up.value, w.file, expected, shards, fault).0.Ok?
    ensures var m := w.up.value; var next, free := m.generation + 1, FreeSpares(m.spares, shards);
            Rebound(w, m, expected, shards, fault)
            == w.(up := Some(Memory(next, shards, free, None)), file := Some(StateFile(next, shards, free)),
                  published := w.published[next := shards])
  {
  }

  lemma RebindSucceeds(w: World, expected: Option<nat>, shards: seq<ShardConfig>, fault: Fault)
    requires Inv(w) && w.up.Some? && TableSound(shards) && PoolSound(FreeSpares(w.up.value.spares, shards), shards)
    requires Rebind(true, w.up.value, w.file, expected, shards, fault).0.Ok?
    ensures Inv(Rebound(w, w.up.value, expected, shards, fault))
  {
    var m := w.up.value;
    ReboundIs(w, expected, shards, fault);
    NextIsNew(m, w.file.value, w.published);
    NextKeepsFile(m, w.file.value, w.published, shards);
    NextKeepsBinds(w.binds, m, w.published, shards);
    if !w.tick.Idle? { NextKeepsTick(w.tick, m, w.published, shards); }
    PartsKeep(Rebound(w, m, expected, shards, fault));
  }

  lemma PartsKeep(w: World)
    requires w.up.Some? && w.file.Some? && PublishedSound(w.published)
    requires FileInv(w.file.value, w.published) && MemoryInv(w.up.value, w.file.value, w.published)
    requires forall n :: 0 <= n < |w.binds| ==> WasPublished(w.published, w.binds[n])
    requires !w.tick.Idle? ==> TickInv(w.tick, w.up.value, w.published)
    ensures Inv(w)
  {
  }

  lemma NextKeepsBinds(binds: seq<Binding>, m: Memory, published: map<nat, seq<ShardConfig>>, shards: seq<ShardConfig>)
    requires m.generation + 1 !in published && forall n :: 0 <= n < |binds| ==> WasPublished(published, binds[n])
    ensures forall n :: 0 <= n < |binds| ==> WasPublished(published[m.generation + 1 := shards], binds[n])
  {
  }

  /** No table has been seen at the next generation. */
  lemma NextIsNew(m: Memory, file: StateFile, published: map<nat, seq<ShardConfig>>)
    requires MemoryInv(m, file, published)
    ensures m.generation + 1 !in published
  {
  }

  lemma NextKeepsFile(m: Memory, file: StateFile, published: map<nat, seq<ShardConfig>>, shards: seq<ShardConfig>)
    requires MemoryInv(m, file, published) && PublishedSound(published) && TableSound(shards)
    requires PoolSound(FreeSpares(m.spares, shards), shards)
    ensures var next, free := m.generation + 1, FreeSpares(m.spares, shards);
            var seen := published[next := shards];
            && PublishedSound(seen) && FileInv(StateFile(next, shards, free), seen)
            && MemoryInv(Memory(next, shards, free, None), StateFile(next, shards, free), seen)
  {
  }

  lemma NextKeepsTick(tick: Tick, m: Memory, published: map<nat, seq<ShardConfig>>, shards: seq<ShardConfig>)
    requires !tick.Idle? && TickInv(tick, m, published) && m.generation + 1 !in published
    ensures TickInv(tick, Memory(m.generation + 1, shards, FreeSpares(m.spares, shards), None),
                    published[m.generation + 1 := shards])
  {
  }

  /** Rebinding to any sound table, whether it succeeds or fails, before or
      after the rename. */
  lemma RebindKeeps(w: World, expected: Option<nat>, shards: seq<ShardConfig>, fault: Fault)
    requires Inv(w) && w.up.Some? && TableSound(shards)
    ensures Inv(Rebound(w, w.up.value, expected, shards, fault))
    ensures var r := Rebind(true, w.up.value, w.file, expected, shards, fault);
            r.0.Err? ==> r.1 == w.up.value
  {
    var m := w.up.value;
    PoolAfterRebind(m, shards);
    FreeSparesAre(m.spares, shards);
    if Rebind(true, m, w.file, expected, shards, fault).0.Err? {
      RebindFails(w, expected, shards, fault);
    } else {
      RebindSucceeds(w, expected, shards, fault);
    }
  }

  lemma RegisterKeeps(w: World, announced: Address, fault: Fault)
    requires Inv(w) && w.up.Some?
    ensures Inv(Announced(w, announced, fault))
  {
    var m := w.up.value;
    var address := WithScheme(announced);
    if !AnyServes(m.shards, address) && address !in m.spares {
      assert PoolSound(m.spares + [address], m.shards);
    }
  }

  lemma BootKeeps(w: World, initial: seq<ShardConfig>, fault: Fault)
    requires Inv(w) && w.up.None? && Dialable(initial)
    ensures Inv(Started(w, initial, fault))
  {
  }

  lemma BindKeeps(w: World, n: nat, bound: bool)
    requires Inv(w) && TickShaped(w) && Enabled(w, BindFinish(n, bound))
    ensures Inv(Apply(w, BindFinish(n, bound)))
  {
  }

  lemma TickStageKeeps(w: World, kept: Staged, moved: Staged)
    requires Inv(w) && TickShaped(w) && Enabled(w, TickStage(kept, moved))
    ensures Inv(Apply(w, TickStage(kept, moved)))
  {
    var m, plan := w.up.value, w.tick.plan;
    ConfigsSound(m.shards, [kept, moved]);
    if m.generation == plan.generation {
      PairIsFor(plan.shards, plan.at, plan.source, w.tick.spare, kept, moved);
    }
  }

  lemma StepKeepsInv(w: World, step: Step)
    requires Inv(w) && TickShaped(w) && Enabled(w, step)
    ensures Inv(Apply(w, step)) && TickShaped(Apply(w, step))
  {
    match step
    case Boot(initial, fault) => BootKeeps(w, initial, fault);
    case Publish(seenAt, staged, fault) =>
      ConfigsSound(w.published[seenAt], staged);
      RebindKeeps(w, None, ConfigsFor(w.published[seenAt], staged), fault);
    case RegisterNode(announced, fault) => RegisterKeeps(w, announced, fault);
    case BindFinish(n, bound) => BindKeeps(w, n, bound);
    case TickStage(kept, moved) => TickStageKeeps(w, kept, moved);
    case TickPublish(fault) =>
      SplicedSound(w.tick.plan.shards, w.tick.plan.at, w.tick.configs);
      RebindKeeps(w, Some(w.tick.plan.generation), TickTable(w.tick), fault);
    case _ =>
  }

  // ---- Runs ----

  /** Step `n` of the run is one the machine can take. */
  ghost predicate NextAt(run: seq<World>, n: nat)
    requires n + 1 < |run|
  {
    Next(run[n], run[n + 1])
  }

  ghost predicate IsRun(run: seq<World>) {
    && run != [] && run[0] == Init()
    && forall n: nat :: n + 1 < |run| ==> NextAt(run, n)
  }

  ghost predicate Next(w: World, t: World) {
    TickShaped(w) && exists step :: Enabled(w, step) && t == Apply(w, step)
  }

  lemma {:induction false} RunKeepsInv(run: seq<World>, n: nat)
    requires IsRun(run) && n < |run|
    ensures Inv(run[n]) && TickShaped(run[n])
  {
    if n > 0 {
      RunKeepsInv(run, n - 1);
      var step := StepTaken(run, n - 1);
      StepKeepsInv(run[n - 1], step);
    }
  }

  /** A live coordinator's file holds the visible generation or the one after
      it, with the visible table at the visible generation; its spares and the
      file's are distinct and serve nothing, and a node told it is a spare is
      one, or serves, in the file too; the cached binding is a table that
      was published, at no later generation. */
  lemma StoredFollowsVisible(run: seq<World>, n: nat)
    requires IsRun(run) && n < |run| && run[n].up.Some?
    ensures var w := run[n]; var m := w.up.value;
            && w.file.Some?
            && (w.file.value.generation == m.generation || w.file.value.generation == m.generation + 1)
            && (w.file.value.generation == m.generation ==> w.file.value.shards == m.shards)
            && PoolSound(m.spares, m.shards) && PoolSound(w.file.value.spares, w.file.value.shards)
            && AllRequired(m.shards) && m.shards != []
            && (forall a :: a in m.spares ==> a in w.file.value.spares || AnyServes(w.file.value.shards, a))
            && (m.pinned.Some? ==>
                  WasPublished(w.published, m.pinned.value) && m.pinned.value.generation <= m.generation)
  {
    RunKeepsInv(run, n);
  }

  lemma StepNeverForgets(w: World, step: Step)
    requires Inv(w) && TickShaped(w) && Enabled(w, step)
    ensures var t := Apply(w, step);
            forall g :: g in w.published ==> g in t.published && t.published[g] == w.published[g]
  {
    if step.Publish? { ConfigsSound(w.published[step.seenAt], step.staged); }
  }

  lemma {:induction false} PublishedGrows(run: seq<World>, n: nat, k: nat)
    requires IsRun(run) && n <= k < |run|
    ensures forall g :: g in run[n].published ==> g in run[k].published && run[k].published[g] == run[n].published[g]
  {
    if n < k {
      PublishedGrows(run, n, k - 1);
      RunKeepsInv(run, k - 1);
      var step := StepTaken(run, k - 1);
      StepNeverForgets(run[k - 1], step);
    }
  }

  /** Across any crashes and restarts the visible generation never falls, and
      one generation is only ever one shard table. */
  lemma VisibleNeverFalls(run: seq<World>, n: nat, k: nat)
    requires IsRun(run) && n <= k < |run| && run[n].up.Some? && run[k].up.Some?
    ensures run[n].up.value.generation <= run[k].up.value.generation
    ensures run[n].up.value.generation == run[k].up.value.generation ==>
              run[n].up.value.shards == run[k].up.value.shards
  {
    RunKeepsInv(run, n);
    RunKeepsInv(run, k);
    PublishedGrows(run, n, k);
  }

  /** A coordinator that was ever visible starts again: what it finds is never
      older than anything that was visible, is the same table if it is level,
      and passes the restart rule, even when the file was left ahead by a
      publication that failed. */
  lemma RestartsAreCurrent(run: seq<World>, n: nat, initial: seq<ShardConfig>, fault: Fault)
    requires IsRun(run) && n < |run| && run[n].up.None? && run[n].published != map[]
    ensures var loaded := LoadOrInitialize(run[n].file, initial, fault).0;
            && loaded == run[n].file && loaded.Some?
            && (forall g :: g in run[n].published ==> g <= loaded.value.generation)
            && (loaded.value.generation in run[n].published ==>
                  run[n].published[loaded.value.generation] == loaded.value.shards)
            && AllRequired(loaded.value.shards)
            && Started(run[n], initial, fault).up ==
               Some(Memory(loaded.value.generation, loaded.value.shards, loaded.value.spares, None))
  {
    RunKeepsInv(run, n);
  }

  // ---- The cached binding ----

  /** A finished bind caches the current table exactly when nothing was
      published since it began. */
  lemma BindIsCurrentIff(run: seq<World>, n: nat, b: nat)
    requires IsRun(run) && n < |run| && TickShaped(run[n]) && Enabled(run[n], BindFinish(b, true))
    ensures var m, t := run[n].up.value, Apply(run[n], BindFinish(b, true)).up.value;
            t.pinned == Some(Binding(m.generation, m.shards)) <==> run[n].binds[b].generation == m.generation
  {
    RunKeepsInv(run, n);
    assert WasPublished(run[n].published, run[n].binds[b]);
  }

  /** And the binding in the cache is the current one exactly when its
      generation is. */
  lemma CacheIsCurrentIff(run: seq<World>, n: nat)
    requires IsRun(run) && n < |run| && run[n].up.Some? && run[n].up.value.pinned.Some?
    ensures var m := run[n].up.value;
            m.pinned.value == Binding(m.generation, m.shards) <==> m.pinned.value.generation == m.generation
  {
    RunKeepsInv(run, n);
  }

  lemma Extend(run: seq<World>, step: Step) returns (next: seq<World>)
    requires IsRun(run) && TickShaped(run[|run| - 1]) && Enabled(run[|run| - 1], step)
    ensures IsRun(next) && next == run + [Apply(run[|run| - 1], step)]
  {
    next := run + [Apply(run[|run| - 1], step)];
    forall n: nat | n + 1 < |next| ensures NextAt(next, n) {
      if n + 1 < |run| { assert NextAt(run, n); }
    }
  }

  function Booted(shard: ShardConfig): World {
    World(Some(Memory(1, [shard], [], None)), Some(StateFile(1, [shard], [])), [], Idle, map[1 := [shard]])
  }

  lemma BootOne(shard: ShardConfig) returns (run: seq<World>)
    requires TableSound([shard])
    ensures IsRun(run) && run[|run| - 1] == Booted(shard)
  {
    run := Extend([Init()], Boot([shard], NoFault));
    assert run[|run| - 1].published == map[1 := [shard]];
  }

  lemma PublishOverBind(shard: ShardConfig, staged: Staged) returns (run: seq<World>)
    requires TableSound([shard]) && 0 < staged.generation
    ensures IsRun(run)
    ensures var w := run[|run| - 1];
            w.up.Some? && w.up.value.generation == 2 && w.binds == [Binding(1, [shard])] && w.tick == Idle
  {
    run := BootOne(shard);
    run := Extend(run, BindStart);
    var w := run[|run| - 1];
    assert w == Booted(shard).(binds := [Binding(1, [shard])]);
    ConfigsSound([shard], [staged]);
    run := Extend(run, Publish(1, [staged], NoFault));
  }

  /** A bind that begins before a publication and ends after it leaves the older
      table in the cache that the publication had cleared. */
  lemma SomeBindingIsStale() returns (run: seq<World>)
    ensures IsRun(run)
    ensures var w := run[|run| - 1];
            w.up.Some? && w.up.value.pinned.Some? && w.up.value.pinned.value.generation < w.up.value.generation
  {
    run := PublishOverBind(ShardConfig(WithScheme("a"), Some(0), [], Some(1)), Staged("a", 1, 1));
    run := Extend(run, BindFinish(0, true));
  }

  /** A publication that succeeded, by an operator or by a tick, leaves nothing
      cached. */
  lemma PublicationEmptiesCache(run: seq<World>, n: nat, step: Step)
    requires IsRun(run) && n < |run| && TickShaped(run[n]) && Enabled(run[n], step)
    requires step.Publish? || step.TickPublish?
    requires Apply(run[n], step).up.Some? && Apply(run[n], step).up.value.generation != run[n].up.value.generation
    ensures Apply(run[n], step).up.value.generation == run[n].up.value.generation + 1
    ensures Apply(run[n], step).up.value.pinned == None
  {
  }

  lemma StepTaken(run: seq<World>, n: nat) returns (step: Step)
    requires IsRun(run) && n + 1 < |run|
    ensures TickShaped(run[n]) && Enabled(run[n], step) && run[n + 1] == Apply(run[n], step)
  {
    assert NextAt(run, n);
    step :| Enabled(run[n], step) && run[n + 1] == Apply(run[n], step);
  }

  lemma CacheMoves(w: World, step: Step)
    requires TickShaped(w) && Enabled(w, step) && Apply(w, step).up.Some? && Apply(w, step).up.value.pinned.Some?
    ensures w.up.Some?
    ensures (exists i: nat :: step == BindFinish(i, true) && w.binds[i] == Apply(w, step).up.value.pinned.value)
            || Apply(w, step).up.value.pinned == w.up.value.pinned
    ensures Apply(w, step).up.value.generation == w.up.value.generation
  {
    if step.BindFinish? && step.bound { assert step == BindFinish(step.n, true); }
  }

  /** The cache holds an older table only because a bind that began before the
      last publication finished after it. */
  lemma {:induction false} StaleCacheIsALateBind(run: seq<World>, n: nat) returns (k: nat, i: nat)
    requires IsRun(run) && n < |run| && run[n].up.Some? && run[n].up.value.pinned.Some?
    requires run[n].up.value.pinned.value.generation < run[n].up.value.generation
    ensures k < n && run[k].up.Some? && run[k].up.value.generation == run[n].up.value.generation
    ensures i < |run[k].binds| && run[k].binds[i] == run[n].up.value.pinned.value
    ensures TickShaped(run[k]) && run[k + 1] == Apply(run[k], BindFinish(i, true))
  {
    if n > 0 {
      var step := StepTaken(run, n - 1);
      CacheMoves(run[n - 1], step);
      if step.BindFinish? && step.bound {
        k, i := n - 1, step.n;
      } else {
        k, i := StaleCacheIsALateBind(run, n - 1);
      }
    }
  }

  /** What a coordinator shows when it starts. With a state file, that file,
      if it names a table whose every entry names a generation; without one, the
      table it was given, as generation 1, if it can be stored. */
  lemma BootIs(w: World, initial: seq<ShardConfig>, fault: Fault)
    requires w.up.None?
    ensures var t := Started(w, initial, fault);
            match w.file
            case Some(f) =>
              && t.file == w.file
              && (t.up.Some? <==>
                    && f.generation != 0 && f.shards != []
                    && forall i :: 0 <= i < |f.shards| ==> f.shards[i].requiredGeneration.Some?)
              && (t.up.Some? ==> t.up == Some(Memory(f.generation, f.shards, f.spares, None)))
            case None =>
              && (t.up.Some? <==>
                    && initial != [] && fault == NoFault
                    && forall i :: 0 <= i < |initial| ==> initial[i].requiredGeneration.Some?)
              && (t.up.Some? ==>
                    t.up == Some(Memory(1, initial, [], None)) && t.file == Some(StateFile(1, initial, [])))
  {
  }

  /** A tick publishes only over the generation it planned from: the new table
      is that generation's with one place spliced, every other shard where it
      was, and exactly the chosen spare leaves the pool. */
  lemma TickPublishesOverItsPlan(run: seq<World>, n: nat, fault: Fault)
    requires IsRun(run) && n < |run| && TickShaped(run[n]) && Enabled(run[n], TickPublish(fault))
    requires var w := run[n];
             Rebind(true, w.up.value, w.file, Some(w.tick.plan.generation), TickTable(w.tick), fault).0.Ok?
    ensures var w := run[n]; var m, now, plan := w.up.value, Apply(w, TickPublish(fault)).up.value, w.tick.plan;
            && m.generation == plan.generation && m.shards == plan.shards
            && now.generation == m.generation + 1 && now.pinned.None?
            && now.shards == m.shards[..plan.at] + w.tick.configs + m.shards[plan.at + 1..]
            && |w.tick.configs| == 2
            && w.tick.configs[0].address == plan.source && w.tick.configs[1].address == w.tick.spare
            && (forall a :: a in now.spares <==> a in m.spares && a != w.tick.spare)
            && |now.spares| == |m.spares| - 1
  {
    RunKeepsInv(run, n);
    var w := run[n];
    var m, plan := w.up.value, w.tick.plan;
    FreeSparesAre(m.spares, TickTable(w.tick));
    SpareIsPlaced(plan.shards, plan.at, w.tick.configs, w.tick.spare);
    forall a | a in m.spares && a != w.tick.spare ensures !AnyServes(TickTable(w.tick), a) {
      if AnyServes(TickTable(w.tick), a) { SplicedServes(plan.shards, plan.at, w.tick.configs, a); }
    }
    OneSpareLess(m.spares, TickTable(w.tick), w.tick.spare);
  }

  lemma SpareIsPlaced(table: seq<ShardConfig>, at: nat, configs: seq<ShardConfig>, spare: Address)
    requires at < |table| && |configs| == 2 && configs[1].address == spare
    ensures AnyServes(Spliced(table, at, configs), spare)
  {
    assert Spliced(table, at, configs)[at + 1] == configs[1];
    assert Serves(Spliced(table, at, configs)[at + 1], spare);
  }

  lemma {:induction false} OneSpareLess(spares: seq<Address>, shards: seq<ShardConfig>, spare: Address)
    requires NoRepeats(spares) && AnyServes(shards, spare)
    requires forall a :: a in spares && a != spare ==> !AnyServes(shards, a)
    ensures |FreeSpares(spares, shards)| == |spares| - (if spare in spares then 1 else 0)
  {
    if spares != [] {
      var init, last := spares[..|spares| - 1], spares[|spares| - 1];
      assert spares == init + [last];
      assert NoRepeats(init) && last !in init;
      OneSpareLess(init, shards, spare);
    }
  }
}
