// The node as the program has it: an object that owns core's manager and the sync engine,
// swaps both for a snapshot, and refuses to answer checks while it cannot know the answer.
// A ghost copy of the machine in Replication moves along with it, so what is proved there of
// every run holds of this object.
module RevokerNode {
  import opened Texts
  import opened Filters
  import opened CoreDisk
  import opened Sync = SyncEngine
  import FilterManager
  import Replication

  // What GetSnapshot returns; an empty blob stands for a missing one.
  datatype Snapshot = Snapshot(currentBlob: Option<Bits>, previousBlob: Option<Bits>, generation: nat,
      lastBackupLsn: nat)

  // How far a swap has come; between two stages the event loop runs other work.
  datatype Stage = NotSwapping | EngineStopped | RevokerGone

  predicate Resumable(state: Option<SyncState>, blobs: CoreDisk) {
    state.Some? && !state.value.dirty && (blobs.current.Some? || blobs.previous.Some?)
  }

  /** Without a write-ahead file core restores exactly the blobs. */
  lemma RestoreBlobs(hash: Hash, current: Option<Bits>, previous: Option<Bits>)
    ensures Restore(hash, CoreDisk(current, previous, [])) == Pair(OrEmpty(current), OrEmpty(previous))
  {
  }

  /** What others do: coordinator, network, and the node's own requests. */
  predicate IsWorldStep(a: Replication.Action) {
    !a.ApplyNext? && !a.BeginBootstrap? && !a.Install?
  }

  lemma WorldFrame(net: Replication.Net, a: Replication.Action)
    requires Replication.Enabled(net, a) && IsWorldStep(a)
    ensures var net' := Replication.Do(net, a);
      net'.engine == net.engine && net'.catchingUp == net.catchingUp && (!a.TakeSnapshot? ==>
        net'.snapshot == net.snapshot)
  {
  }

  lemma ApplyFrame(net: Replication.Net, o: Outcome)
    requires Replication.Enabled(net, Replication.ApplyNext(o))
    ensures var net' := Replication.Do(net, Replication.ApplyNext(o)); var ev := net.chain[0].1;
      && net'.engine == Sync.Step(net.engine, ev, o) && net'.catchingUp == (net.catchingUp && !Opens(net.engine, ev))
      && net'.snapshot == net.snapshot
  {
  }

  lemma InstallFrame(net: Replication.Net)
    requires |net.wal.home| == |net.wal.log| && net.snapshot.Some? && net.catchingUp && net.engine.stopped
    ensures Replication.Enabled(net, Replication.Install)
    ensures var net' := Replication.Do(net, Replication.Install); var (point, generation) := net.snapshot.value;
      var stored := Some(SyncState(point, generation, false));
      && net'.engine == Engine(point, point, generation, false, false, false, stored, [])
      && net'.catchingUp == net.catchingUp
  {
  }

  /** An open gate means the revoker is past what some Subscribe accepted since the bootstrap promised. */
  lemma OpenGate(net: Replication.Net)
    requires Replication.Inv(net) && !net.catchingUp
    ensures net.engine.gateOpened && AppliedPrefix(net.engine, net.wal.log)
    ensures exists a :: a in net.accepted && a <= net.engine.lastApplied
  {
    hide Replication.LogInv, Replication.SourcesOk, Replication.ChainOk, Replication.Progress;
  }

  class RevokerNode {
    const hash: Hash
    const numItems: nat
    const stateFile: StateFile
    var blobs: CoreDisk            // the backup directory while no manager owns it
    var revoker: FilterManager.BloomFilterManager?
    var engine: SyncEngine?
    var inHand: Option<Snapshot>   // the snapshot a bootstrap is installing
    var dirty: bool
    var catchingUp: bool
    var bootstrapping: bool
    var rebootstrapPending: bool
    var shuttingDown: bool
    ghost var stage: Stage
    ghost var resumed: bool        // started from its own disk, not from a snapshot
    ghost var astray: bool         // core rotated on its own since the last installation
    ghost var timers: nat          // rebootstraps waiting for their timer
    ghost var running: nat         // bootstraps between their first and last line
    ghost var net: Replication.Net // its node is this one between an installation and a rotation of its own

    ghost predicate Owns()
      reads this, revoker, engine, stateFile
    {
      && (revoker != null ==> revoker.Valid() && revoker.hash == hash)
      && (engine != null ==> engine.store == stateFile && engine.revoker == revoker)
      && (engine != null && !astray ==> engine.Valid() && StoreExact(engine.Value()))
    }

    /** At most one bootstrap is waiting or running. */
    ghost predicate OneBootstrap()
      reads this
    {
      && timers + running <= 1
      && (running == 1 <==> bootstrapping)
      && (timers == 1 ==> rebootstrapPending)
      && (rebootstrapPending ==> timers + running == 1)
    }

    /** An engine that asked for a rebootstrap has one waiting or running, which a failure queues again. */
    ghost predicate Recovering()
      reads this, engine
    {
      && (engine != null && engine.rebootstrapFired && !shuttingDown ==> rebootstrapPending)
      && (engine != null && bootstrapping && !shuttingDown ==> rebootstrapPending)
    }

    ghost predicate Staged()
      reads this, engine
    {
      && (!stage.NotSwapping? ==> catchingUp)
      && (stage.EngineStopped? ==> engine == null || engine.stopped)
      && (stage.RevokerGone? ==> engine == null && revoker == null)
      && (stage.NotSwapping? ==> (revoker == null <==> engine == null))
      && (stage.RevokerGone? ==> !resumed && !astray)
      && (inHand.Some? ==> !stage.NotSwapping?)
      && (inHand.Some? ==> net.snapshot == Some((inHand.value.lastBackupLsn, inHand.value.generation)))
    }

    /** The machine's node is this one, as long as it lives on a snapshot and on the coordinator's rotations. */
    ghost predicate Tied()
      reads this, engine, stateFile
      ensures Tied() ==> |net.wal.home| == |net.wal.log|
    {
      && Replication.Inv(net)
      && (engine != null && !resumed && !astray ==>
          engine.store == stateFile && net.engine == engine.Value() && net.catchingUp == catchingUp)
      && (!stage.NotSwapping? ==> net.catchingUp && net.engine.stopped)
    }

    ghost predicate Valid()
      reads this, revoker, engine, stateFile
      ensures Valid() ==> |net.wal.home| == |net.wal.log|
    {
      Owns() && OneBootstrap() && Recovering() && Staged() && Tied()
    }

    /** A node on the state file and the backup files an earlier process left behind. */
    constructor (hash: Hash, numItems: nat, stateFile: StateFile, blobs: CoreDisk, ghost net: Replication.Net)
      requires forall i :: 0 <= i < |blobs.temp| ==> ValidItem(blobs.temp[i])
      requires Replication.Initial(net)
      ensures Valid() && stage.NotSwapping? && revoker == null && !bootstrapping && this.net == net
      ensures this.stateFile == stateFile && this.hash == hash && this.blobs == blobs
    {
      Replication.ReachableInv(net, []);
      hide Replication.Inv;
      this.hash := hash;
      this.numItems := numItems;
      this.stateFile := stateFile;
      this.blobs := blobs;
      this.revoker := null;
      this.engine := null;
      this.inHand := None;
      this.dirty := false;
      this.catchingUp := false;
      this.bootstrapping := false;
      this.rebootstrapPending := false;
      this.shuttingDown := false;
      this.stage := NotSwapping;
      this.resumed := false;
      this.astray := false;
      this.timers := 0;
      this.running := 0;
      this.net := net;
    }

    /** Core's manager on the files `d`, and an engine that starts at a cursor. */
    method Create(d: CoreDisk, lsn: nat, generation: nat) returns (manager: FilterManager.BloomFilterManager,
        e: SyncEngine)
      requires forall i :: 0 <= i < |d.temp| ==> ValidItem(d.temp[i])
      ensures fresh(manager) && fresh(e) && manager.Valid() && manager.hash == hash
      ensures e.Valid() && e.revoker == manager && e.store == stateFile && e.initialPair == Restore(hash, d)
      ensures e.Value() == Engine(lsn, lsn, generation, false, false, false, ReadState(stateFile.content), [])
    {
      hide Restore, Revoker, Unlines, ValidItem;
      manager := new FilterManager.BloomFilterManager(hash, numItems, d, Unlines(d.temp));
      e := new SyncEngine(stateFile, manager, lsn, generation);
    }

    /**
     * The start of init(): a clean state file beside at least one blob is resumed, with the filters
     * core restores and the cursor of the file; otherwise a snapshot is needed.
     */
    method Resume() returns (ok: bool)
      requires Valid() && stage.NotSwapping? && revoker == null && !astray && !bootstrapping
      requires forall i :: 0 <= i < |blobs.temp| ==> ValidItem(blobs.temp[i])
      modifies this`revoker, this`engine, this`dirty, this`resumed
      ensures Valid()
      ensures ok == Resumable(ReadState(stateFile.content), blobs)
      ensures ok ==> blobs.current.Some? || blobs.previous.Some?
      ensures blobs.current.Some? || blobs.previous.Some? ==>
        (ok <==> exists lsn: nat, generation: nat :: stateFile.content == Json(lsn, generation, false))
      ensures ok ==> revoker != null && engine != null && engine.initialPair == Restore(hash, blobs)
      ensures ok ==> var state := ReadState(stateFile.content).value;
        engine.lastAppliedLsn == state.lastLsn && engine.generation == state.generation && StoreExact(engine.Value())
      ensures !ok ==> revoker == null && engine == null
    {
      hide ValidItem, Restore, Unlines, Revoker, Replication.Inv, FilterManager.BloomFilterManager.Valid;
      var state := stateFile.Read();
      ok := false;
      if state.Some? && !state.value.dirty && (blobs.current.Some? || blobs.previous.Some?) {
        ok := true;
        dirty := false;
        revoker, engine := Create(blobs, state.value.lastLsn, state.value.generation);
        resumed := true;
      }
    }

    /** Coordinator, network and the node's own requests move on. */
    ghost method World(a: Replication.Action)
      requires Valid() && Replication.Enabled(net, a) && IsWorldStep(a) && (a.TakeSnapshot? ==> inHand == None)
      modifies this`net
      ensures Valid() && Replication.Steps(old(net), a, net)
    {
      hide Replication.Inv, Replication.Do, Replication.Enabled, Restore, Revoker;
      Replication.StepKeepsInv(net, a);
      WorldFrame(net, a);
      net := Replication.Do(net, a);
    }

    /**
     * A check; None is the exception. It never answers while a swap or the catch-up is under way:
     * when it answers, a node living on a snapshot is past the coordinator's lastLsn at some
     * Subscribe accepted since, and the answer is yes exactly when all bits of the item came in with
     * the snapshot's blobs and the entries applied within one of the two newest windows.
     */
    method Has(item: Text) returns (r: Option<bool>)
      requires Valid()
      ensures r.Some? <==> revoker != null && !shuttingDown && !catchingUp && !Blank(item)
      ensures r.Some? ==> stage.NotSwapping? && engine != null
      ensures r.Some? && !astray ==>
        && r.value == Filters.Has(hash, Revoker(hash, engine.initialPair, engine.applied), item)
        && (r.value <==> FilterManager.InOneWindow(item, hash, engine.initialPair, Operations(engine.applied)))
      ensures r.Some? && !astray && !resumed ==>
        && AppliedPrefix(engine.Value(), net.wal.log)
        && exists a :: a in net.accepted && a <= engine.lastAppliedLsn
    {
      hide Blank, Restore, Replication.Inv, Revoker, AppliedPrefix, FilterManager.InOneWindow;
      if revoker == null || shuttingDown || catchingUp {
        return None;
      }
      if !resumed && !astray {
        OpenGate(net);
      }
      r := revoker.Contains(item);
      if !astray {
        RevokerIsFold(hash, engine.initialPair, engine.applied);
        FilterManager.FoundIsInOneWindow(hash, engine.initialPair, Operations(engine.applied), item);
      }
    }

    /** The engine's part of a delivery; the callback for a rebootstrap is still to come. */
    method Hear(event: Wire, stoppedMeanwhile: bool, persisted: bool)
      requires Valid() && engine != null && revoker != null && !astray
      requires var o := OutcomeOf(event, revoker.shuttingDown, stoppedMeanwhile, persisted);
        !resumed ==> Replication.Enabled(net, Replication.ApplyNext(o)) && net.chain[0].1 == event
      modifies this`catchingUp, this`net, engine, stateFile, revoker
      ensures Owns() && OneBootstrap() && Staged() && Tied() && engine.initialPair == old(engine.initialPair)
      ensures var o := OutcomeOf(event, old(revoker.shuttingDown), stoppedMeanwhile, persisted);
        && engine.Value() == Sync.Step(old(engine.Value()), event, o)
        && catchingUp == (old(catchingUp) && !Opens(old(engine.Value()), event))
        && (!resumed ==> Replication.Steps(old(net), Replication.ApplyNext(o), net))
        && (resumed ==> net == old(net))
    {
      hide Restore, Revoker, FilterManager.CheckItem, Replication.Inv, Replication.Do, Replication.Enabled;
      hide FilterManager.BloomFilterManager.Valid, StoreExact, Recovering;
      ghost var o := OutcomeOf(event, revoker.shuttingDown, stoppedMeanwhile, persisted);
      var heard := event.Keepalive? && !engine.stopped && !engine.rebootstrapFired;
      StepKeepsStoreExact(engine.Value(), event, o);
      if !resumed {
        Replication.StepKeepsInv(net, Replication.ApplyNext(o));
        ApplyFrame(net, o);
        net := Replication.Do(net, Replication.ApplyNext(o));
      }
      engine.ApplyEvent(event, stoppedMeanwhile, persisted);
      if heard {
        catchingUp := false;
      }
    }

    /**
     * The engine applies the next event of its chain: the keepalive behind the backlog releases the
     * gate, and an engine that cannot go on has a rebootstrap queued.
     */
    method Deliver(event: Wire, stoppedMeanwhile: bool, persisted: bool)
      requires Valid() && engine != null && revoker != null && !astray
      requires var o := OutcomeOf(event, revoker.shuttingDown, stoppedMeanwhile, persisted);
        !resumed ==> Replication.Enabled(net, Replication.ApplyNext(o)) && net.chain[0].1 == event
      modifies this`catchingUp, this`net, this`rebootstrapPending, this`timers, engine, stateFile, revoker
      ensures Valid() && engine.initialPair == old(engine.initialPair)
      ensures var o := OutcomeOf(event, old(revoker.shuttingDown), stoppedMeanwhile, persisted);
        && engine.Value() == Sync.Step(old(engine.Value()), event, o)
        && catchingUp == (old(catchingUp) && !Opens(old(engine.Value()), event))
        && (!resumed ==> Replication.Steps(old(net), Replication.ApplyNext(o), net))
        && (resumed ==> net == old(net))
      ensures engine.rebootstrapFired && !shuttingDown ==> rebootstrapPending && (timers == 1 || bootstrapping)
    {
      hide Restore, Revoker, FilterManager.CheckItem, Replication.Inv, Replication.Do, Replication.Enabled;
      hide FilterManager.BloomFilterManager.Valid, StoreExact, Sync.Step, Replication.Steps;
      var wasFired := engine.rebootstrapFired;
      Hear(event, stoppedMeanwhile, persisted);
      if engine.rebootstrapFired && !wasFired {
        OnRebootstrapRequired();
      }
    }

    /** The engine's callback: a rebootstrap is queued unless one is waiting or running. */
    method OnRebootstrapRequired()
      requires OneBootstrap()
      modifies this`rebootstrapPending, this`timers
      ensures OneBootstrap() && (old(rebootstrapPending) ==> rebootstrapPending)
      ensures !shuttingDown ==> rebootstrapPending || bootstrapping
      ensures shuttingDown ==> rebootstrapPending == old(rebootstrapPending) && timers == old(timers)
    {
      if shuttingDown {
        return;
      }
      var _ := ScheduleRebootstrap();
    }

    /** init() asks for a snapshot when there is nothing to resume. */
    method BeginBootstrap()
      requires Valid() && !bootstrapping && timers == 0 && engine == null
      modifies this`bootstrapping, this`running
      ensures Valid() && bootstrapping
    {
      hide Restore, Revoker, Replication.Inv;
      bootstrapping := true;
      running := 1;
    }

    /** With gate closed and engine stopped the node is where the machine's node is. */
    lemma SwappingIsValid()
      requires Owns() && OneBootstrap() && Recovering() && stage.EngineStopped? && (engine != null ==> engine.stopped)
      requires inHand.Some? ==> net.snapshot == Some((inHand.value.lastBackupLsn, inHand.value.generation))
      requires Replication.Inv(net) && net.catchingUp && catchingUp && net.engine.stopped
      requires engine != null && !resumed && !astray ==> net.engine == engine.Value()
      ensures Valid()
    {
      hide FilterManager.BloomFilterManager.Valid, SyncEngine.Valid, Replication.Inv, SyncEngine.Value;
    }

    ghost method SwapNet()
      requires Replication.Inv(net) && net.snapshot.Some?
      modifies this`net
      ensures Replication.Inv(net) && Replication.Steps(old(net), Replication.BeginBootstrap, net)
      ensures net == old(net).(catchingUp := true, engine := old(net).engine.(stopped := true))
    {
      Replication.InvBounds(net);
      Replication.SwapFrame(net);
      hide Replication.Inv, Replication.Do, Replication.Enabled;
      Replication.StepKeepsInv(net, Replication.BeginBootstrap);
      net := Replication.Do(net, Replication.BeginBootstrap);
    }

    /** The answer is here: a wrong geometry is refused, else the gate closes and the engine stops. */
    method BeginSwap(snapshot: Snapshot, sameGeometry: bool) returns (ok: bool)
      requires Valid() && bootstrapping && inHand == None
      requires net.snapshot == Some((snapshot.lastBackupLsn, snapshot.generation))
      modifies this`catchingUp, this`stage, this`inHand, this`net, engine
      ensures Valid() && ok == sameGeometry
      ensures ok ==> stage.EngineStopped? && inHand == Some(snapshot)
      ensures ok ==> Replication.Steps(old(net), Replication.BeginBootstrap, net)
      ensures !ok ==> stage == old(stage) && inHand == None && net == old(net) && catchingUp == old(catchingUp)
    {
      hide Restore, Revoker, Replication.Inv, Replication.Do, Replication.Enabled, Replication.Steps;
      hide FilterManager.BloomFilterManager.Valid, SyncEngine.Valid, SyncEngine.Value, StoreExact;
      ok := sameGeometry;
      if !ok {
        return;
      }
      SwapNet();
      catchingUp := true;
      if engine != null {
        engine.Stop();
      }
      inHand := Some(snapshot);
      stage := EngineStopped;
      SwappingIsValid();
    }

    /** The engine has drained: both it and the manager are let go of before anything is wiped. */
    method DropRevoker()
      requires Valid() && stage.EngineStopped?
      modifies this`engine, this`revoker, this`stage, this`resumed, this`astray
      ensures Valid() && stage.RevokerGone? && inHand == old(inHand) && net == old(net)
    {
      hide Restore, Revoker, Replication.Inv;
      engine := null;
      revoker := null;
      stage := RevokerGone;
      resumed := false;
      astray := false;
    }

    ghost method InstallNet()
      requires Replication.Inv(net) && net.snapshot.Some? && net.catchingUp && net.engine.stopped
      modifies this`net
      ensures Replication.Inv(net) && Replication.Steps(old(net), Replication.Install, net) && net.catchingUp
      ensures var (point, generation) := old(net).snapshot.value;
        net.engine == Engine(point, point, generation, false, false, false, Some(SyncState(point, generation,
            false)), [])
    {
      Replication.InvBounds(net);
      InstallFrame(net);
      hide Replication.Inv, Replication.Do, Replication.Enabled;
      Replication.StepKeepsInv(net, Replication.Install);
      net := Replication.Do(net, Replication.Install);
    }

    /** Old files away, the snapshot's blobs and the state file in place. */
    method WriteSnapshot(snapshot: Snapshot)
      modifies this`blobs, this`dirty, stateFile
      ensures blobs == CoreDisk(snapshot.currentBlob, snapshot.previousBlob, []) && !dirty
      ensures ReadState(stateFile.content) == Some(SyncState(snapshot.lastBackupLsn, snapshot.generation, false))
    {
      blobs := CoreDisk(None, None, []);
      blobs := CoreDisk(snapshot.currentBlob, snapshot.previousBlob, []);
      dirty := false;
      stateFile.Write(SyncState(snapshot.lastBackupLsn, snapshot.generation, false));
    }

    /** With its new manager and engine the node is where the machine's node is. */
    lemma PublishedIsValid()
      requires revoker != null && engine != null && revoker.Valid() && revoker.hash == hash
      requires engine.Valid() && engine.revoker == revoker && engine.store == stateFile
      requires var v := engine.Value(); v.stored == Some(SyncState(v.lastApplied, v.generation, false))
      requires Replication.Inv(net) && net.engine == engine.Value() && net.catchingUp == catchingUp
      requires timers == 0 && running == 0 && !bootstrapping && !rebootstrapPending && !engine.Value().fired
      requires stage.NotSwapping? && inHand == None
      ensures Valid()
    {
      hide FilterManager.BloomFilterManager.Valid, SyncEngine.Valid, Replication.Inv;
    }

    /** The new manager and engine become the node's. */
    method Publish(snapshot: Snapshot)
      requires blobs == CoreDisk(snapshot.currentBlob, snapshot.previousBlob, []) && catchingUp && !resumed && !astray
      requires timers == 0 && Replication.Inv(net) && net.catchingUp
      requires ReadState(stateFile.content) == Some(SyncState(snapshot.lastBackupLsn, snapshot.generation, false))
      requires var point := snapshot.lastBackupLsn; var stored := Some(SyncState(point, snapshot.generation, false));
        net.engine == Engine(point, point, snapshot.generation, false, false, false, stored, [])
      modifies this`revoker, this`engine, this`inHand, this`bootstrapping, this`running, this`rebootstrapPending,
          this`stage
      ensures Valid() && stage.NotSwapping? && !bootstrapping
      ensures revoker != null && engine != null && fresh(engine) && fresh(revoker)
      ensures engine.initialPair == Pair(OrEmpty(snapshot.currentBlob), OrEmpty(snapshot.previousBlob))
    {
      hide *;
      RestoreBlobs(hash, snapshot.currentBlob, snapshot.previousBlob);
      revoker, engine := Create(blobs, snapshot.lastBackupLsn, snapshot.generation);
      inHand := None;
      bootstrapping := false;
      running := 0;
      rebootstrapPending := false;
      stage := NotSwapping;
      PublishedIsValid();
    }

    /** Snapshot on disk, state file, new manager, new engine: only the catch-up is still missing. */
    method Install()
      requires Valid() && stage.RevokerGone? && inHand.Some? && bootstrapping
      modifies this, stateFile
      ensures Valid() && stage.NotSwapping? && catchingUp && !dirty && !resumed && !astray && !bootstrapping
      ensures revoker != null && engine != null
      ensures var s := old(inHand).value;
        && engine.initialPair == Pair(OrEmpty(s.currentBlob), OrEmpty(s.previousBlob))
        && ReadState(stateFile.content) == Some(SyncState(s.lastBackupLsn, s.generation, false))
      ensures Replication.Steps(old(net), Replication.Install, net)
    {
      hide Restore, Revoker, Replication.Inv, Replication.Do, Replication.Enabled;
      var snapshot := inHand.value;
      InstallNet();
      WriteSnapshot(snapshot);
      Publish(snapshot);
    }

    /** A bootstrap throws, wherever it stands; one that a timer had started is queued again. */
    method FailBootstrap() returns (queued: bool)
      requires Valid() && bootstrapping
      modifies this`bootstrapping, this`running, this`inHand, this`rebootstrapPending, this`timers
      ensures Valid() && !bootstrapping && queued == (old(rebootstrapPending) && !shuttingDown)
    {
      hide Restore, Revoker, Replication.Inv;
      bootstrapping := false;
      running := 0;
      inHand := None;
      queued := false;
      if rebootstrapPending {
        rebootstrapPending := false;
        queued := ScheduleRebootstrap();
      }
    }

    /** Queues a rebootstrap unless one is queued or running: then there is exactly one. */
    method ScheduleRebootstrap() returns (queued: bool)
      requires OneBootstrap()
      modifies this`rebootstrapPending, this`timers
      ensures OneBootstrap()
      ensures timers == old(timers) + if queued then 1 else 0
      ensures queued <==> !shuttingDown && !old(rebootstrapPending) && !bootstrapping
      ensures rebootstrapPending == (old(rebootstrapPending) || queued)
    {
      if shuttingDown || rebootstrapPending || bootstrapping {
        return false;
      }
      rebootstrapPending := true;
      timers := timers + 1;
      return true;
    }

    /** The timer of a queued rebootstrap fires. */
    method RebootstrapTimer()
      requires Valid() && timers == 1
      modifies this`rebootstrapPending, this`timers, this`bootstrapping, this`running
      ensures Valid() && timers == 0 && bootstrapping == !shuttingDown
    {
      hide Restore, Revoker, Replication.Inv;
      timers := 0;
      if shuttingDown {
        rebootstrapPending := false;
        return;
      }
      bootstrapping := true;
      running := 1;
    }

    /** The synchronous start of shutdown(): from here on checks throw and nothing is queued. */
    method BeginShutdown()
      requires Valid()
      modifies this`shuttingDown, this`rebootstrapPending, this`timers
      ensures Valid() && shuttingDown && timers == 0
    {
      hide Restore, Revoker, Replication.Inv;
      shuttingDown := true;
      timers := 0;
      rebootstrapPending := false;
    }

    /** The hook: on the coordinator's word nothing happens, else the node is dirty and starts over. */
    method OnCoreRotation(persisted: bool) returns (queued: bool)
      requires OneBootstrap()
      modifies this`dirty, this`rebootstrapPending, this`timers, stateFile
      ensures OneBootstrap()
      ensures old(Valid()) && astray ==> Valid()
      ensures var selfRotated := !shuttingDown && !(engine != null && engine.inCoordinatedRotation);
        && dirty == (old(dirty) || selfRotated)
        && queued == (selfRotated && !old(rebootstrapPending) && !bootstrapping)
        && timers == old(timers) + (if queued then 1 else 0)
        && (selfRotated && persisted ==> !Resumable(ReadState(stateFile.content), blobs))
        && (!selfRotated ==> stateFile.content == old(stateFile.content))
    {
      hide Restore, Revoker, Replication.Inv, FilterManager.BloomFilterManager.Valid;
      if shuttingDown {
        return false;
      }
      if engine != null && engine.inCoordinatedRotation {
        return false;
      }
      dirty := true;
      if persisted {
        stateFile.Update(None, None, Some(true));
      }
      queued := ScheduleRebootstrap();
    }

    /** Core's own safety timer rotates: nothing is promised of the answers until the next installation. */
    method SelfRotation(persisted: bool) returns (queued: bool)
      requires Valid() && revoker != null && (engine != null ==> !engine.inCoordinatedRotation)
      modifies this`dirty, this`rebootstrapPending, this`timers, this`astray, stateFile, revoker
      ensures Valid() && astray && net == old(net)
      ensures !shuttingDown ==> dirty && (queued || old(rebootstrapPending) || bootstrapping)
      ensures !shuttingDown && persisted ==> !Resumable(ReadState(stateFile.content), blobs)
    {
      hide Restore, Revoker, Replication.Inv;
      revoker.Rotate();
      astray := true;
      queued := OnCoreRotation(persisted);
    }
  }
}
