// The layers put together: one machine of the coordinator with its files, the network and one
// node with its filters. A snapshot carries the blobs that lie on disk when it is taken, the node
// installs exactly those, and its filters change as its engine applies events. Crash-free
// coordinators; every await interleaves.
module EndToEnd {
  import opened WalSpec
  import opened Filters
  import opened Texts
  import CanonicalWal
  import Coordinator
  import CoordinatorProcess
  import opened Convergence
  import opened SyncEngine
  import Replication

  datatype System = System(
    coordinator: Coordinator.State,
    net: Replication.Net,
    filters: Pair,                          // the node's filters
    // the coordinator when the snapshot in hand was taken; only its blobs and meta are ever used
    taken: Option<Coordinator.State>,
    // bookkeeping of the proof: the same of the snapshot the node last installed
    installed: Option<Coordinator.State>)

  datatype Action =
    | Core(op: Coordinator.Action)          // one file operation of a backup or rotation of core
    | Revoke(item: Text, refused: bool)
    | Hook(deleted: seq<nat>)               // the rotation hook, after the blob was promoted
    | Snapshot
    | Node(step: Replication.Action)        // network and node

  predicate IsCoreStep(a: Coordinator.Action) {
    a.WriteBlob? || a.ClearTemp? || a.RotateWriteBlob? || a.RotateClearTemp? || a.Promote?
  }

  predicate IsNodeStep(a: Replication.Action) {
    !a.Add? && !a.RotateNow? && !a.RestartCoordinator? && !a.TakeSnapshot?
  }

  ghost predicate Enabled(y: System, a: Action) {
    match a
    case Core(b) => IsCoreStep(b) && Coordinator.Enabled(y.coordinator, b)
    case Revoke(item, refused) =>
      y.coordinator.phase.Idle? && ValidItem(item) && Replication.Enabled(y.net, Replication.Add(item, refused))
    case Hook(deleted) =>
      && y.coordinator.phase.Promoted? && CanonicalWal.Distinct(deleted)
      && |y.coordinator.wal.home| == |y.coordinator.wal.log|
      && Replication.Enabled(y.net, Replication.RotateNow(deleted))
    case Snapshot => AtAwait(y.coordinator) && Replication.Enabled(y.net, Replication.TakeSnapshot)
    case Node(b) => IsNodeStep(b) && Replication.Enabled(y.net, b) && (b.Install? ==> y.taken.Some?)
  }

  /** What a step of the node does to its filters. */
  ghost function NodeFilters(hash: Hash, y: System, a: Replication.Action): Pair
    requires Replication.Enabled(y.net, a)
  {
    if a.Install? && y.taken.Some? then SnapshotPair(y.taken.value)
    else if a.ApplyNext? && Replication.Do(y.net, a).engine.applied != y.net.engine.applied then
      ApplyWire(hash, y.filters, y.net.chain[0].1)
    else y.filters
  }

  ghost function Do(hash: Hash, y: System, a: Action): System
    requires Enabled(y, a)
  {
    match a
    case Core(b) => y.(coordinator := Coordinator.Do(hash, y.coordinator, b))
    case Revoke(item, refused) =>
      y.(coordinator := CoordinatorProcess.AfterAdd(hash, y.coordinator, item, !refused),
         net := Replication.Do(y.net, Replication.Add(item, refused)))
    case Hook(deleted) =>
      y.(coordinator := CoordinatorProcess.AfterHook(y.coordinator, deleted),
         net := Replication.Do(y.net, Replication.RotateNow(deleted)))
    case Snapshot => y.(net := Replication.Do(y.net, Replication.TakeSnapshot), taken := Some(y.coordinator))
    case Node(b) =>
      var y' := y.(net := Replication.Do(y.net, b), filters := NodeFilters(hash, y, b));
      if b.Install? then y'.(installed := y.taken, taken := None) else y'
  }

  ghost predicate Runs(hash: Hash, y: System, run: seq<Action>)
    decreases |run|
  {
    run == [] || (Enabled(y, run[0]) && Runs(hash, Do(hash, y, run[0]), run[1..]))
  }

  ghost function Final(hash: Hash, y: System, run: seq<Action>): System
    requires Runs(hash, y, run)
    decreases |run|
  {
    if run == [] then y else Final(hash, Do(hash, y, run[0]), run[1..])
  }

  /** A node that has nothing yet, facing a coordinator. */
  function Start(c: Coordinator.State): System {
    var engine := Engine(0, 0, 0, true, false, false, None, []);
    System(c, Replication.Net(c.wal, c.metaState.lastBackupLsn, [], [], engine, true, None, {}, true), EMPTY, None,
        None)
  }

  // ---- The invariant ----

  /** The snapshot taken at s is one today's log continues. */
  ghost predicate Continues(hash: Hash, s: Coordinator.State, c: Coordinator.State) {
    && SnapshotOf(hash, s, c.wal.log)
    && (s.phase.Promoted? && |s.wal.log| == |c.wal.log| ==> c.phase.Promoted?)
  }

  ghost predicate CoordinatorOk(hash: Hash, y: System) {
    && InStep(hash, y.coordinator) && AtAwait(y.coordinator)
    && y.net.wal == y.coordinator.wal && y.net.lastBackup == y.coordinator.metaState.lastBackupLsn
  }

  ghost predicate TakenOk(hash: Hash, y: System) {
    && (y.net.snapshot.Some? <==> y.taken.Some?)
    && (y.taken.Some? ==>
        && Continues(hash, y.taken.value, y.coordinator)
        && y.net.snapshot.value == (y.taken.value.metaState.lastBackupLsn, y.taken.value.metaState.generation))
  }

  ghost predicate InstalledOk(hash: Hash, y: System) {
    match y.installed
    case None => y.net.catchingUp && y.net.engine.stopped && !y.net.engine.gateOpened
    case Some(s) =>
      && Continues(hash, s, y.coordinator)
      && y.net.engine.initialLsn == s.metaState.lastBackupLsn
      && y.filters == Revoker(hash, SnapshotPair(s), y.net.engine.applied)
  }

  ghost predicate Inv(hash: Hash, y: System) {
    Replication.Inv(y.net) && CoordinatorOk(hash, y) && TakenOk(hash, y) && InstalledOk(hash, y)
  }

  lemma {:induction false} RunInStep(hash: Hash, c: Coordinator.State, run: seq<Coordinator.Action>,
      c': Coordinator.State)
    requires InStep(hash, c) && CrashFree(run) && CoordinatorProcess.Did(hash, c, run, c')
    ensures InStep(hash, c')
  {
    RunKeepsInStep(hash, c, run);
  }

  lemma StartInv(hash: Hash, c: Coordinator.State)
    requires InStep(hash, c) && AtAwait(c)
    ensures Inv(hash, Start(c))
  {
    var y := Start(c);
    LogIsReplicable(hash, c);
    hide InStep, Replication.LogInv;
    assert Replication.Initial(y.net);
    Replication.ReachableInv(y.net, []);
  }

  lemma LogIsReplicable(hash: Hash, c: Coordinator.State)
    requires InStep(hash, c) && AtAwait(c)
    ensures Replication.LogInv(c.wal, c.metaState.lastBackupLsn)
    ensures c.wal.generation == c.metaState.generation
    ensures |c.wal.home| == |c.wal.log|
  {
    hide Coordinator.LogShape, Coordinator.FilesKept;
  }

  /** Only the log grows. */
  lemma ContinuesLater(hash: Hash, s: Coordinator.State, c: Coordinator.State, c': Coordinator.State)
    requires Continues(hash, s, c) && c.wal.log <= c'.wal.log
    requires c.phase.Promoted? ==> |c.wal.log| < |c'.wal.log| && c'.wal.log[|c.wal.log|].Rotate?
    ensures Continues(hash, s, c')
  {
    hide InStep;
  }

  // ---- Steps of the coordinator ----

  /** When the coordinator moves on along its log and the net follows, so does everything else. */
  lemma CoordinatorMoves(hash: Hash, y: System, y': System)
    requires Inv(hash, y) && Replication.Inv(y'.net) && CoordinatorOk(hash, y')
    requires y' == y.(coordinator := y'.coordinator, net := y'.net)
    requires y'.net.snapshot == y.net.snapshot && y'.net.engine == y.net.engine && y'.net.catchingUp == y.net.catchingUp
    requires y.coordinator.wal.log <= y'.coordinator.wal.log
    requires var c, c' := y.coordinator, y'.coordinator;
      c.phase.Promoted? ==> |c.wal.log| < |c'.wal.log| && c'.wal.log[|c.wal.log|].Rotate?
    ensures Inv(hash, y')
  {
    hide Replication.Inv, CoordinatorOk, Continues, Revoker;
    if y.taken.Some? {
      ContinuesLater(hash, y.taken.value, y.coordinator, y'.coordinator);
    }
    if y.installed.Some? {
      ContinuesLater(hash, y.installed.value, y.coordinator, y'.coordinator);
    }
  }

  lemma CoreKeepsInv(hash: Hash, y: System, op: Coordinator.Action)
    requires Inv(hash, y) && Enabled(y, Core(op))
    ensures Inv(hash, Do(hash, y, Core(op)))
  {
    StepKeepsInStep(hash, y.coordinator, op);
    CoreStepFrame(hash, y.coordinator, op);
    hide Replication.Inv, InStep, Coordinator.Do, Coordinator.Enabled, TakenOk, InstalledOk;
    CoordinatorMoves(hash, y, Do(hash, y, Core(op)));
  }

  lemma CoreStepFrame(hash: Hash, c: Coordinator.State, op: Coordinator.Action)
    requires Coordinator.Enabled(c, op) && IsCoreStep(op)
    ensures var c' := Coordinator.Do(hash, c, op);
      c'.wal == c.wal && c'.metaState == c.metaState && AtAwait(c') && !c.phase.Promoted?
  {
  }

  lemma RevokeKeepsCoordinator(hash: Hash, c: Coordinator.State, item: Text, success: bool)
    requires InStep(hash, c) && c.phase.Idle? && ValidItem(item)
    ensures InStep(hash, CoordinatorProcess.AfterAdd(hash, c, item, success))
  {
    CoordinatorProcess.AddDid(hash, c, item, success);
    hide CoordinatorProcess.Did, CoordinatorProcess.AfterAdd, ValidItem;
    RunInStep(hash, c, CoordinatorProcess.AddActions(item, success), CoordinatorProcess.AfterAdd(hash, c, item,
        success));
  }

  /** What the net and the coordinator make of an add is the same log. */
  lemma RevokeFrame(hash: Hash, c: Coordinator.State, net: Replication.Net, item: Text, refused: bool)
    requires Replication.Enabled(net, Replication.Add(item, refused)) && net.wal == c.wal && c.phase.Idle?
    ensures var net' := Replication.Do(net, Replication.Add(item, refused));
      var c' := CoordinatorProcess.AfterAdd(hash, c, item, !refused);
      && net'.wal == c'.wal && net'.lastBackup == net.lastBackup && c'.metaState == c.metaState
      && net'.snapshot == net.snapshot && net'.engine == net.engine && net'.catchingUp == net.catchingUp
      && c.wal.log <= c'.wal.log && c'.phase.Idle?
  {
    hide Replication.Broadcast, ValidItem;
  }

  lemma RevokeKeepsInv(hash: Hash, y: System, item: Text, refused: bool)
    requires Inv(hash, y) && Enabled(y, Revoke(item, refused))
    ensures Inv(hash, Do(hash, y, Revoke(item, refused)))
  {
    RevokeKeepsCoordinator(hash, y.coordinator, item, !refused);
    Replication.StepKeepsInv(y.net, Replication.Add(item, refused));
    RevokeFrame(hash, y.coordinator, y.net, item, refused);
    hide Replication.Inv, InStep, TakenOk, InstalledOk, ValidItem, Replication.Do, Replication.Enabled;
    hide CoordinatorProcess.AfterAdd;
    CoordinatorMoves(hash, y, Do(hash, y, Revoke(item, refused)));
  }

  lemma HookKeepsCoordinator(hash: Hash, c: Coordinator.State, deleted: seq<nat>)
    requires InStep(hash, c) && c.phase.Promoted?
      && CoordinatorProcess.Retirable(CoordinatorProcess.Checkpointed(c), deleted)
    ensures InStep(hash, CoordinatorProcess.AfterHook(c, deleted))
  {
    CoordinatorProcess.DidNothing(hash, c);
    CoordinatorProcess.HookDid(hash, c, [], c, deleted);
    HookIsCrashFree(deleted);
    hide CoordinatorProcess.Did, CoordinatorProcess.HookActions, CoordinatorProcess.AfterHook,
        CoordinatorProcess.Retirable;
    assert [] + CoordinatorProcess.HookActions(deleted) == CoordinatorProcess.HookActions(deleted);
    RunInStep(hash, c, CoordinatorProcess.HookActions(deleted), CoordinatorProcess.AfterHook(c, deleted));
  }

  lemma HookIsCrashFree(deleted: seq<nat>)
    ensures CrashFree(CoordinatorProcess.HookActions(deleted))
  {
  }

  lemma HookIsRetirable(c: Coordinator.State, deleted: seq<nat>)
    requires |c.wal.home| == |c.wal.log| && c.wal.generation == c.metaState.generation && CanonicalWal.Distinct(deleted)
    requires forall j :: 0 <= j < |deleted| ==>
      Deletable(AppendRotate(c.wal, c.wal.generation + 1), c.wal.generation, |c.wal.log| + 1, deleted[j])
    ensures CoordinatorProcess.Retirable(CoordinatorProcess.Checkpointed(c), deleted)
  {
    hide Deletable;
  }

  /** What the net and the coordinator make of the rotation hook is the same log and the same point. */
  lemma HookFrame(c: Coordinator.State, net: Replication.Net, deleted: seq<nat>)
    requires Replication.Enabled(net, Replication.RotateNow(deleted)) && net.wal == c.wal
    requires c.wal.generation == c.metaState.generation && CanonicalWal.Distinct(deleted)
    ensures |c.wal.home| == |c.wal.log|
    ensures CoordinatorProcess.Retirable(CoordinatorProcess.Checkpointed(c), deleted)
    ensures var net' := Replication.Do(net, Replication.RotateNow(deleted));
      var c' := CoordinatorProcess.AfterHook(c, deleted);
      && net'.wal == c'.wal && net'.lastBackup == c'.metaState.lastBackupLsn
      && net'.snapshot == net.snapshot && net'.engine == net.engine && net'.catchingUp == net.catchingUp
      && c.wal.log < c'.wal.log && c'.wal.log[|c.wal.log|].Rotate? && c'.phase.Idle?
  {
    hide Replication.Broadcast, Deletable, CanonicalWal.Distinct;
    HookIsRetirable(c, deleted);
  }

  lemma HookKeepsInv(hash: Hash, y: System, deleted: seq<nat>)
    requires Inv(hash, y) && Enabled(y, Hook(deleted))
    ensures Inv(hash, Do(hash, y, Hook(deleted)))
  {
    hide Replication.Inv, InStep, TakenOk, InstalledOk, Replication.Do, Replication.Enabled, CanonicalWal.Distinct;
    hide CoordinatorProcess.Retirable, CoordinatorProcess.AfterHook, CoordinatorProcess.Checkpointed;
    LogIsReplicable(hash, y.coordinator);
    HookFrame(y.coordinator, y.net, deleted);
    HookKeepsCoordinator(hash, y.coordinator, deleted);
    Replication.StepKeepsInv(y.net, Replication.RotateNow(deleted));
    CoordinatorMoves(hash, y, Do(hash, y, Hook(deleted)));
  }

  lemma SnapshotKeepsInv(hash: Hash, y: System)
    requires Inv(hash, y) && Enabled(y, Snapshot)
    ensures Inv(hash, Do(hash, y, Snapshot))
  {
    hide Replication.Inv, Replication.Do, Replication.Enabled, InStep, Continues, Revoker, Replication.LogInv;
    Replication.StepKeepsInv(y.net, Replication.TakeSnapshot);
    Replication.InvBounds(y.net);
    Replication.SnapshotFrame(y.net);
    LogIsReplicable(hash, y.coordinator);
    ContinuesItself(hash, y.coordinator);
  }

  lemma ContinuesItself(hash: Hash, c: Coordinator.State)
    requires InStep(hash, c) && AtAwait(c)
    ensures Continues(hash, c, c)
  {
    hide InStep;
  }

  // ---- Steps of network and node ----

  lemma NodeStepFrame(net: Replication.Net, a: Replication.Action)
    requires Replication.Enabled(net, a) && IsNodeStep(a)
    ensures var net' := Replication.Do(net, a);
      && net'.wal == net.wal && net'.lastBackup == net.lastBackup
      && (!a.Install? ==> net'.snapshot == net.snapshot && net'.engine.initialLsn == net.engine.initialLsn)
      && (!a.Install? && !a.ApplyNext? ==> net'.engine.applied == net.engine.applied)
      && (a.Install? ==> net'.snapshot == None)
      && (!a.Install? && net.catchingUp && net.engine.stopped && !net.engine.gateOpened ==>
          net'.catchingUp && net'.engine.stopped && !net'.engine.gateOpened)
  {
    hide ReadSince, CanServeFrom;
  }

  /** A step of the engine applies one event or none. */
  lemma OneEventAtMost(e: Engine, ev: Wire, o: Outcome)
    ensures Step(e, ev, o).applied == e.applied || Step(e, ev, o).applied == e.applied + [ev]
  {
  }

  lemma NodeStepFilters(hash: Hash, y: System, a: Replication.Action, s: Coordinator.State)
    requires Replication.Enabled(y.net, a) && IsNodeStep(a) && !a.Install?
    requires y.filters == Revoker(hash, SnapshotPair(s), y.net.engine.applied)
    ensures NodeFilters(hash, y, a) == Revoker(hash, SnapshotPair(s), Replication.Do(y.net, a).engine.applied)
  {
    NodeStepFrame(y.net, a);
    if a.ApplyNext? {
      OneEventAtMost(y.net.engine, y.net.chain[0].1, a.o);
      hide Step, Revoker;
      RevokerAppend(hash, SnapshotPair(s), y.net.engine.applied, y.net.chain[0].1);
    }
  }

  lemma NodeKeepsInv(hash: Hash, y: System, a: Replication.Action)
    requires Inv(hash, y) && Enabled(y, Node(a)) && !a.Install?
    ensures Inv(hash, Do(hash, y, Node(a)))
  {
    Replication.StepKeepsInv(y.net, a);
    NodeStepFrame(y.net, a);
    if y.installed.Some? {
      NodeStepFilters(hash, y, a, y.installed.value);
    }
    hide Replication.Inv, Replication.Do, Replication.Enabled, InStep, Continues, Revoker, NodeFilters;
  }

  lemma InstallFrame(net: Replication.Net)
    requires Replication.Enabled(net, Replication.Install)
    ensures var net' := Replication.Do(net, Replication.Install);
      && net'.wal == net.wal && net'.lastBackup == net.lastBackup && net'.snapshot == None
      && net'.engine.initialLsn == net.snapshot.value.0 && net'.engine.applied == []
  {
  }

  lemma InstallKeepsInv(hash: Hash, y: System)
    requires Inv(hash, y) && Enabled(y, Node(Replication.Install))
    ensures Inv(hash, Do(hash, y, Node(Replication.Install)))
  {
    Replication.StepKeepsInv(y.net, Replication.Install);
    InstallFrame(y.net);
    hide Replication.Inv, Replication.Do, Replication.Enabled, InStep, Continues;
  }

  lemma StepKeepsInv(hash: Hash, y: System, a: Action)
    requires Inv(hash, y) && Enabled(y, a)
    ensures Inv(hash, Do(hash, y, a))
  {
    match a
    case Core(op) => CoreKeepsInv(hash, y, op);
    case Revoke(item, refused) => RevokeKeepsInv(hash, y, item, refused);
    case Hook(deleted) => HookKeepsInv(hash, y, deleted);
    case Snapshot => SnapshotKeepsInv(hash, y);
    case Node(step) =>
      if step.Install? {
        InstallKeepsInv(hash, y);
      } else {
        NodeKeepsInv(hash, y, step);
      }
  }

  lemma {:induction false} RunKeepsInv(hash: Hash, y: System, run: seq<Action>)
    requires Inv(hash, y) && Runs(hash, y, run)
    ensures Inv(hash, Final(hash, y, run))
    decreases |run|
  {
    hide Inv, Enabled, Do;
    if run != [] {
      StepKeepsInv(hash, y, run[0]);
      RunKeepsInv(hash, Do(hash, y, run[0]), run[1..]);
    }
  }

  // ---- What a serving node knows ----

  lemma {:induction false} RevokerReplicates(hash: Hash, p: Pair, log: seq<Event>)
    ensures Revoker(hash, p, Wired(log)) == Replicated(hash, p, log)
  {
    if log == [] {
      assert Wired(log) == [];
    } else {
      var front := log[..|log| - 1];
      RevokerReplicates(hash, p, front);
      assert Wired(log)[..|log| - 1] == Wired(front);
    }
  }

  /** How far into the log the revoker is: past lastApplied by one when a state write failed. */
  lemma RevokerPosition(e: Engine, log: seq<Event>) returns (n: nat)
    requires AppliedPrefix(e, log)
    ensures e.initialLsn <= e.lastApplied <= n <= |log| && e.applied == Wired(log[e.initialLsn..n])
  {
    n := if e.applied == Wired(log[e.initialLsn..e.lastApplied]) then e.lastApplied else e.lastApplied + 1;
  }

  /** Covering the coordinator after event n means finding every entry of its two newest windows. */
  lemma CoveredEntriesAreFound(hash: Hash, node: Pair, log: seq<Event>, n: nat, i: nat)
    requires Generations(log) && i < n <= |log| && Covers(node, CoordinatorPair(hash, log, n))
    requires log[i].Entry? && Gen(log[..n]) <= Gen(log[..i]) + 1
    ensures Has(hash, node, log[i].item)
  {
    GenerationsPrefix(log, n);
    assert log[..n][..i] == log[..i];
    EntryIsFound(hash, EMPTY, log[..n], i);
    hide Exact, Gen;
  }

  lemma SystemFacts(hash: Hash, y: System)
    requires Inv(hash, y)
    ensures AppliedPrefix(y.net.engine, y.coordinator.wal.log) && Generations(y.coordinator.wal.log)
    ensures !y.net.catchingUp ==> y.installed.Some? && exists a :: a in y.net.accepted && a <= y.net.engine.lastApplied
  {
    hide InStep, Continues, Revoker, Coordinator.FilesKept, Replication.SourcesOk, Replication.ChainOk,
        Replication.Progress;
  }

  /**
   * A node that answers checks, after any run: there is a position n of the log, at or past the
   * coordinator's lastLsn at some Subscribe accepted since the node's last bootstrap, such that the
   * node's filters cover the coordinator's as of event n - and then find every entry up to n that is
   * in the two newest windows there - exactly when the snapshot it installed allows it: always,
   * unless that was taken in the promoted window and the marker is not applied yet. Equality is
   * decided as exactly, on tails without tombstones.
   */
  lemma ServingNodeFindsEntries(hash: Hash, before: seq<Coordinator.Action>, run: seq<Action>) returns (a: nat, n: nat)
    requires Coordinator.Runs(hash, Coordinator.FRESH, before) && CrashFree(before)
    requires AtAwait(Coordinator.Final(hash, Coordinator.FRESH, before))
    requires Runs(hash, Start(Coordinator.Final(hash, Coordinator.FRESH, before)), run)
    requires !Final(hash, Start(Coordinator.Final(hash, Coordinator.FRESH, before)), run).net.catchingUp
    ensures var y := Final(hash, Start(Coordinator.Final(hash, Coordinator.FRESH, before)), run);
      var log := y.coordinator.wal.log;
      && y.installed.Some? && a in y.net.accepted && a <= n <= |log|
      && (Covers(y.filters, CoordinatorPair(hash, log, n)) <==> CoversFrom(hash, y.installed.value, n))
      && (CoversFrom(hash, y.installed.value, n) ==>
          forall i :: 0 <= i < n && log[i].Entry? && Gen(log[..n]) <= Gen(log[..i]) + 1 ==>
            Has(hash, y.filters, log[i].item))
      && var point := y.installed.value.metaState.lastBackupLsn;
         && point <= n
         && (NoTombstone(log[point..n]) ==>
             (y.filters == CoordinatorPair(hash, log, n) <==> EqualsFrom(hash, y.installed.value, n)))
  {
    hide Coordinator.Runs, Coordinator.Final, Runs, Final, InStep;
    var c := Coordinator.Final(hash, Coordinator.FRESH, before);
    assert InStep(hash, Coordinator.FRESH) by {
      FreshIsInStep(hash);
    }
    RunKeepsInStep(hash, Coordinator.FRESH, before);
    StartInv(hash, c);
    RunKeepsInv(hash, Start(c), run);
    var y := Final(hash, Start(c), run);
    a, n := ServingPosition(hash, y);
  }

  lemma ServingPosition(hash: Hash, y: System) returns (a: nat, n: nat)
    requires Inv(hash, y) && !y.net.catchingUp
    ensures var log := y.coordinator.wal.log;
      && y.installed.Some? && a in y.net.accepted && a <= n <= |log|
      && (Covers(y.filters, CoordinatorPair(hash, log, n)) <==> CoversFrom(hash, y.installed.value, n))
      && (CoversFrom(hash, y.installed.value, n) ==>
          forall i :: 0 <= i < n && log[i].Entry? && Gen(log[..n]) <= Gen(log[..i]) + 1 ==>
            Has(hash, y.filters, log[i].item))
      && var point := y.installed.value.metaState.lastBackupLsn;
         && point <= n
         && (NoTombstone(log[point..n]) ==>
             (y.filters == CoordinatorPair(hash, log, n) <==> EqualsFrom(hash, y.installed.value, n)))
  {
    SystemFacts(hash, y);
    hide Replication.Inv, CoordinatorOk, TakenOk, SnapshotOf, Revoker, Replicated, CoversFrom, EqualsFrom, Covers,
        CoordinatorPair;
    hide Gen, Has, NoTombstone;
    var log, s := y.coordinator.wal.log, y.installed.value;
    a :| a in y.net.accepted && a <= y.net.engine.lastApplied;
    n := RevokerPosition(y.net.engine, log);
    RevokerReplicates(hash, SnapshotPair(s), log[y.net.engine.initialLsn..n]);
    assert y.filters == NodePair(hash, SnapshotPair(s), log, s.metaState.lastBackupLsn, n);
    CoverageExactly(hash, s, log, n);
    if NoTombstone(log[s.metaState.lastBackupLsn..n]) {
      EqualityExactly(hash, s, log, n);
    }
    if CoversFrom(hash, s, n) {
      forall i | 0 <= i < n && log[i].Entry? && Gen(log[..n]) <= Gen(log[..i]) + 1
        ensures Has(hash, y.filters, log[i].item)
      {
        CoveredEntriesAreFound(hash, y.filters, log, n, i);
      }
    }
  }
}
