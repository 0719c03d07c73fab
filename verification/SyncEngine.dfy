// The node's apply chain: one event at a time, from streams and polls alike.
module SyncEngine {
  import opened Texts
  import opened WalSpec
  import opened Filters
  import CoreDisk
  import FilterManager

  // An event as it arrives; a missing lsn stands for one that is no non-negative safe integer.
  datatype Wire =
    | NoEvent
    | Keepalive(coordinatorLastLsn: nat)
    | Resnapshot
    | EntryMsg(lsn: Option<nat>, generation: nat, item: Text)
    | RotateMsg(lsn: Option<nat>, generation: nat)

  /** The wire shape of a canonical event: a tombstone travels as a plain entry. */
  function ToWire(e: Event): Wire {
    match e
    case Entry(lsn, g, item) => EntryMsg(Some(lsn), g, item)
    case Tombstone(lsn, g, item) => EntryMsg(Some(lsn), g, item)
    case Rotate(lsn, g) => RotateMsg(Some(lsn), g)
  }

  function Wired(log: seq<Event>): seq<Wire> {
    seq(|log|, i requires 0 <= i < |log| => ToWire(log[i]))
  }

  // What the outside world does while one event is applied.
  datatype Outcome = Outcome(
    applied: bool,        // applyEntry returned
    rotated: bool,        // rotateOnDemand resolved
    stoppedMeanwhile: bool, // stop() was called while the rotation was awaited
    persisted: bool)      // the state file was written

  datatype SyncState = SyncState(lastLsn: nat, generation: nat, dirty: bool)

  datatype Engine = Engine(
    initialLsn: nat,
    lastApplied: nat,
    generation: nat,
    stopped: bool,
    fired: bool,
    gateOpened: bool,        // onKeepaliveReceived was called
    stored: Option<SyncState>,
    applied: seq<Wire>)      // events handed to the revoker, in order

  function Fire(e: Engine): Engine {
    if e.stopped then e else e.(fired := true)
  }

  function Merge(stored: Option<SyncState>, lsn: nat, generation: nat): SyncState {
    SyncState(lsn, generation, stored.Some? && stored.value.dirty)
  }

  function Persist(e: Engine, lsn: nat, o: Outcome): Engine {
    if o.persisted then e.(stored := Some(Merge(e.stored, lsn, e.generation)), lastApplied := lsn) else Fire(e)
  }

  /** One event of the apply chain. */
  function Step(e: Engine, ev: Wire, o: Outcome): Engine {
    if e.stopped || e.fired then e
    else
      match ev
      case NoEvent => e
      case Keepalive(_) => e.(gateOpened := true)
      case Resnapshot => Fire(e)
      case EntryMsg(lsn, _, _) =>
        if lsn.None? then Fire(e)
        else if lsn.value <= e.lastApplied then e
        else if lsn.value != e.lastApplied + 1 || !o.applied then Fire(e)
        else Persist(e.(applied := e.applied + [ev]), lsn.value, o)
      case RotateMsg(lsn, generation) =>
        if lsn.None? then Fire(e)
        else if lsn.value <= e.lastApplied then e
        else if lsn.value != e.lastApplied + 1 || generation != e.generation + 1 then Fire(e)
        else
          var e' := e.(stopped := o.stoppedMeanwhile);
          if !o.rotated then Fire(e')
          else Persist(e'.(applied := e.applied + [ev], generation := generation), lsn.value, o)
  }

  /** A keepalive reaching a live engine makes it call the owner's onKeepaliveReceived. */
  predicate Opens(e: Engine, ev: Wire) {
    ev.Keepalive? && !e.stopped && !e.fired
  }

  // The node's state file: missing, unreadable, or a JSON object.
  datatype FileContent = Missing | Corrupt | Json(lastLsn: int, generation: int, dirty: bool)

  function ReadState(content: FileContent): Option<SyncState> {
    if content.Json? && content.lastLsn >= 0 && content.generation >= 0
    then Some(SyncState(content.lastLsn, content.generation, content.dirty))
    else None
  }

  class StateFile {
    var content: FileContent

    constructor (content: FileContent)
      ensures this.content == content
    {
      this.content := content;
    }

    /** Reads back exactly what a Write can have left; anything else counts as absent. */
    method Read() returns (state: Option<SyncState>)
      ensures state == ReadState(content)
      ensures state.Some? ==> content == Json(state.value.lastLsn, state.value.generation, state.value.dirty)
      ensures state == None ==> forall s: SyncState :: content != Json(s.lastLsn, s.generation, s.dirty)
    {
      match content
      case Json(lastLsn, generation, dirty) =>
        if lastLsn < 0 || generation < 0 {
          return None;
        }
        state := Some(SyncState(lastLsn, generation, dirty));
      case _ => state := None;
    }

    method Write(state: SyncState)
      modifies this
      ensures ReadState(content) == Some(state) && content == Json(state.lastLsn, state.generation, state.dirty)
    {
      content := Json(state.lastLsn, state.generation, state.dirty);
    }

    /** Read-modify-write; the fields left out keep what the file says, or zeros when it says nothing. */
    method Update(lastLsn: Option<nat>, generation: Option<nat>, dirty: Option<bool>)
      modifies this
      ensures var was := ReadState(old(content)); var now := ReadState(content);
        && now.Some?
        && now.value.lastLsn == (if lastLsn.Some? then lastLsn.value else if was.Some? then was.value.lastLsn else 0)
        && now.value.generation
          == (if generation.Some? then generation.value else if was.Some? then was.value.generation else 0)
        && now.value.dirty == (if dirty.Some? then dirty.value else was.Some? && was.value.dirty)
        && content == Json(now.value.lastLsn, now.value.generation, now.value.dirty)
    {
      var read := Read();
      var current := if read.Some? then read.value else SyncState(0, 0, false);
      Write(SyncState(
        if lastLsn.Some? then lastLsn.value else current.lastLsn,
        if generation.Some? then generation.value else current.generation,
        if dirty.Some? then dirty.value else current.dirty));
    }
  }

  // ---- The revoker behind the engine ----

  function ApplyWire(hash: Hash, p: Pair, ev: Wire): Pair {
    match ev
    case EntryMsg(_, _, item) => AddItem(hash, p, item)
    case RotateMsg(_, _) => Shift(p)
    case _ => p
  }

  /** What a revoker's filters become as the engine hands it events. */
  function Revoker(hash: Hash, p: Pair, applied: seq<Wire>): Pair {
    if applied == [] then p else ApplyWire(hash, Revoker(hash, p, applied[..|applied| - 1]), applied[|applied| - 1])
  }

  lemma RevokerAppend(hash: Hash, p: Pair, applied: seq<Wire>, ev: Wire)
    ensures Revoker(hash, p, applied + [ev]) == ApplyWire(hash, Revoker(hash, p, applied), ev)
  {
    assert (applied + [ev])[..|applied|] == applied;
  }

  /** The operations of core's manager that applying an event asks for. */
  function Handed(ev: Wire): seq<CoreDisk.Op> {
    match ev
    case EntryMsg(_, _, item) => [CoreDisk.Insert(item)]
    case RotateMsg(_, _) => [CoreDisk.Rotation]
    case _ => []
  }

  function Operations(applied: seq<Wire>): seq<CoreDisk.Op> {
    if applied == [] then [] else Operations(applied[..|applied| - 1]) + Handed(applied[|applied| - 1])
  }

  lemma {:induction false} RevokerIsFold(hash: Hash, p: Pair, applied: seq<Wire>)
    ensures Revoker(hash, p, applied) == CoreDisk.Fold(hash, p, Operations(applied))
  {
    if applied != [] {
      var front, ev := applied[..|applied| - 1], applied[|applied| - 1];
      RevokerIsFold(hash, p, front);
      if ev.EntryMsg? || ev.RotateMsg? {
        CoreDisk.FoldAppend(hash, p, Operations(front), Handed(ev)[0]);
      } else {
        assert Operations(front) + [] == Operations(front);
      }
    }
  }

  /** What core's manager makes of an event: applyEntry() checks the item, rotateOnDemand() only for shutdown. */
  function OutcomeOf(ev: Wire, shuttingDown: bool, stoppedMeanwhile: bool, persisted: bool): Outcome {
    Outcome(ev.EntryMsg? && FilterManager.CheckItem(ev.item) == FilterManager.Ok && !shuttingDown,
            !shuttingDown, stoppedMeanwhile, persisted)
  }

  class SyncEngine {
    const store: StateFile
    const revoker: FilterManager.BloomFilterManager
    const initialLsn: nat
    var lastAppliedLsn: nat
    var generation: nat
    var stopped: bool
    var rebootstrapFired: bool
    var inCoordinatedRotation: bool
    var gateOpened: bool
    ghost const initialPair: Pair
    ghost var applied: seq<Wire>

    ghost function Value(): Engine
      reads this, store
    {
      Engine(initialLsn, lastAppliedLsn, generation, stopped, rebootstrapFired, gateOpened,
          ReadState(store.content), applied)
    }

    /** Between events no rotation is under way, and the revoker holds what it was handed. */
    ghost predicate Valid()
      reads this, revoker
    {
      && !inCoordinatedRotation
      && revoker.Valid()
      && revoker.Pair() == Revoker(revoker.hash, initialPair, applied)
    }

    constructor (store: StateFile, revoker: FilterManager.BloomFilterManager, initialLsn: nat, initialGeneration: nat)
      requires revoker.Valid()
      ensures Valid() && this.store == store && this.revoker == revoker && initialPair == revoker.Pair()
      ensures var stored := ReadState(store.content);
        Value() == Engine(initialLsn, initialLsn, initialGeneration, false, false, false, stored, [])
    {
      this.store := store;
      this.revoker := revoker;
      this.initialLsn := initialLsn;
      this.lastAppliedLsn := initialLsn;
      this.generation := initialGeneration;
      this.stopped := false;
      this.rebootstrapFired := false;
      this.inCoordinatedRotation := false;
      this.gateOpened := false;
      this.initialPair := revoker.Pair();
      this.applied := [];
    }

    method Rebootstrap()
      modifies this`rebootstrapFired
      ensures rebootstrapFired == (old(rebootstrapFired) || !stopped)
    {
      if rebootstrapFired || stopped {
        return;
      }
      rebootstrapFired := true;
    }

    /** The start of stop(): no later event is applied. */
    method Stop()
      modifies this`stopped
      ensures stopped && Value() == old(Value()).(stopped := true)
      ensures old(Valid()) ==> Valid()
      ensures old(StoreExact(Value())) ==> StoreExact(Value())
    {
      hide FilterManager.BloomFilterManager.Valid, Revoker;
      stopped := true;
    }

    /** The next event in order goes to core's manager; a failure asks for a rebootstrap. */
    method Hand(event: Wire, stoppedMeanwhile: bool) returns (handed: bool)
      requires Valid() && !stopped && !rebootstrapFired && (event.EntryMsg? || event.RotateMsg?)
      modifies this, revoker
      ensures Valid() && revoker.shuttingDown == old(revoker.shuttingDown) && store.content == old(store.content)
      ensures var o := OutcomeOf(event, old(revoker.shuttingDown), stoppedMeanwhile, true);
        handed == if event.EntryMsg? then o.applied else event.generation == old(generation) + 1 && o.rotated
      ensures var e := old(Value());
        var e' := if event.RotateMsg? && event.generation == e.generation + 1 then e.(stopped := stoppedMeanwhile)
                  else e;
        Value() == if !handed then Fire(e')
                   else e'.(applied := e.applied + [event],
                            generation := if event.RotateMsg? then event.generation else e.generation)
    {
      hide CoreDisk.Restore, CoreDisk.Images, CoreDisk.Fold, Unlines, FilterManager.CheckItem, Revoker;
      RevokerAppend(revoker.hash, initialPair, applied, event);
      if event.EntryMsg? {
        var r := revoker.ApplyEntry(event.item);
        if r != FilterManager.Ok {
          Rebootstrap();
          return false;
        }
        applied := applied + [event];
      } else {
        var expected := generation + 1;
        if event.generation != expected {
          Rebootstrap();
          return false;
        }
        inCoordinatedRotation := true;
        var rotated := revoker.RotateOnDemand();
        stopped := stoppedMeanwhile;
        if !rotated {
          inCoordinatedRotation := false;
          Rebootstrap();
          return false;
        }
        applied := applied + [event];
        inCoordinatedRotation := false;
        generation := expected;
      }
      return true;
    }

    /** Applies one wire event; a concurrent stop() and the disk decide the last two arguments. */
    method ApplyEvent(event: Wire, stoppedMeanwhile: bool, persisted: bool)
      requires Valid()
      modifies this, store, revoker
      ensures Valid()
      ensures var o := OutcomeOf(event, old(revoker.shuttingDown), stoppedMeanwhile, persisted);
        Value() == Step(old(Value()), event, o)
      ensures revoker.shuttingDown == old(revoker.shuttingDown)
      ensures lastAppliedLsn == old(lastAppliedLsn) ==> store.content == old(store.content)
      ensures lastAppliedLsn != old(lastAppliedLsn) ==>
        var was := ReadState(old(store.content));
        store.content == Json(lastAppliedLsn, generation, was.Some? && was.value.dirty)
    {
      hide FilterManager.BloomFilterManager.Valid, FilterManager.CheckItem, Revoker;
      if stopped || rebootstrapFired {
        return;
      }
      if event.NoEvent? {
        return;
      }
      if event.Keepalive? {
        gateOpened := true;
        return;
      }
      if event.Resnapshot? {
        Rebootstrap();
        return;
      }
      if event.lsn.None? {
        Rebootstrap();
        return;
      }
      var lsn := event.lsn.value;
      if lsn <= lastAppliedLsn {
        return;
      }
      if lsn != lastAppliedLsn + 1 {
        Rebootstrap();
        return;
      }
      var handed := Hand(event, stoppedMeanwhile);
      if !handed {
        return;
      }
      if !persisted {
        Rebootstrap();
        return;
      }
      store.Update(Some(lsn), Some(generation), None);
      lastAppliedLsn := lsn;
    }
  }

  // ---- Exactly-once application ----

  /** An arriving event that carries an LSN is the log's event at that LSN. */
  predicate Canonical(log: seq<Event>, ev: Wire) {
    (ev.EntryMsg? || ev.RotateMsg?) && ev.lsn.Some? ==>
      1 <= ev.lsn.value <= |log| && ev == ToWire(log[ev.lsn.value - 1])
  }

  /** The revoker has seen the log from initialLsn + 1 to lastApplied, plus at most one unpersisted event. */
  predicate AppliedPrefix(e: Engine, log: seq<Event>) {
    && e.initialLsn <= e.lastApplied <= |log|
    && (|| e.applied == Wired(log[e.initialLsn..e.lastApplied])
        || ((e.fired || e.stopped) && e.lastApplied < |log|
            && e.applied == Wired(log[e.initialLsn..e.lastApplied + 1])))
  }

  lemma WiredGrows(log: seq<Event>, i: nat, n: nat)
    requires i <= n < |log|
    ensures Wired(log[i..n + 1]) == Wired(log[i..n]) + [ToWire(log[n])]
  {
    assert log[i..n + 1] == log[i..n] + [log[n]];
  }

  lemma StepKeepsPrefix(e: Engine, ev: Wire, o: Outcome, log: seq<Event>)
    requires AppliedPrefix(e, log) && Canonical(log, ev)
    ensures AppliedPrefix(Step(e, ev, o), log)
  {
    hide Wired, ToWire;
    if e.lastApplied < |log| {
      WiredGrows(log, e.initialLsn, e.lastApplied);
    }
  }

  function Run(e: Engine, deliveries: seq<(Wire, Outcome)>): Engine
    decreases |deliveries|
  {
    if deliveries == [] then e else Run(Step(e, deliveries[0].0, deliveries[0].1), deliveries[1..])
  }

  /**
   * Whatever canonical events arrive - dropped, repeated, reordered, from any mix of streams and
   * polls, with any failures - the revoker sees the log in order, each event once.
   */
  lemma {:induction false} ExactlyOnce(e: Engine, deliveries: seq<(Wire, Outcome)>, log: seq<Event>)
    requires AppliedPrefix(e, log)
    requires forall d <- deliveries :: Canonical(log, d.0)
    ensures AppliedPrefix(Run(e, deliveries), log)
    ensures e.lastApplied <= Run(e, deliveries).lastApplied
    decreases |deliveries|
  {
    if deliveries != [] {
      var d := deliveries[0];
      assert d in deliveries;
      StepKeepsPrefix(e, d.0, d.1, log);
      ExactlyOnce(Step(e, d.0, d.1), deliveries[1..], log);
    }
  }

  /** After a rebootstrap fires, or stop(), nothing is applied and nothing is stored. */
  lemma {:induction false} NothingAfterRebootstrap(e: Engine, deliveries: seq<(Wire, Outcome)>)
    requires e.fired || e.stopped
    ensures Run(e, deliveries) == e
    decreases |deliveries|
  {
    if deliveries != [] {
      NothingAfterRebootstrap(e, deliveries[1..]);
    }
  }

  /** Gate and position only move forward. */
  lemma {:induction false} EngineOnlyAdvances(e: Engine, deliveries: seq<(Wire, Outcome)>)
    ensures var e' := Run(e, deliveries);
      && e.lastApplied <= e'.lastApplied && (e.gateOpened ==> e'.gateOpened)
      && (e.fired ==> e'.fired) && (e.stopped ==> e'.stopped)
    decreases |deliveries|
  {
    if deliveries != [] {
      EngineOnlyAdvances(Step(e, deliveries[0].0, deliveries[0].1), deliveries[1..]);
    }
  }

  /** The event was taken account of by an engine in this state. */
  predicate Absorbed(e: Engine, ev: Wire) {
    match ev
    case NoEvent => true
    case Keepalive(_) => e.gateOpened
    case Resnapshot => false
    case EntryMsg(lsn, _, _) => lsn.Some? && lsn.value <= e.lastApplied
    case RotateMsg(lsn, _) => lsn.Some? && lsn.value <= e.lastApplied
  }

  /**
   * Nothing is dropped in silence: as long as the engine has neither asked for a rebootstrap nor been
   * stopped, its position is past every event that arrived, it heard every keepalive, and neither a
   * resnapshot nor an event without a usable LSN was among them.
   */
  lemma {:induction false} NothingIsSkipped(e: Engine, deliveries: seq<(Wire, Outcome)>)
    requires !Run(e, deliveries).fired && !Run(e, deliveries).stopped
    ensures forall d <- deliveries :: Absorbed(Run(e, deliveries), d.0)
    decreases |deliveries|
  {
    if deliveries != [] {
      var e', rest := Step(e, deliveries[0].0, deliveries[0].1), deliveries[1..];
      EngineOnlyAdvances(e', rest);
      NothingIsSkipped(e', rest);
      forall d <- deliveries ensures Absorbed(Run(e, deliveries), d.0) {
        if d in rest {
        } else {
          assert d == deliveries[0];
        }
      }
    }
  }

  /** The state file never names an LSN whose event the revoker has not seen. */
  predicate StoreBehind(e: Engine) {
    e.stored.Some? ==> e.stored.value.lastLsn <= e.initialLsn + |e.applied| && e.stored.value.lastLsn <= e.lastApplied
  }

  lemma {:induction false} StoreNeverAhead(e: Engine, deliveries: seq<(Wire, Outcome)>)
    requires StoreBehind(e) && e.lastApplied <= e.initialLsn + |e.applied|
    ensures StoreBehind(Run(e, deliveries))
    decreases |deliveries|
  {
    if deliveries != [] {
      StoreNeverAhead(Step(e, deliveries[0].0, deliveries[0].1), deliveries[1..]);
    }
  }

  /** The state file names exactly the engine's position, but for a rotation whose state could not be written. */
  predicate StoreExact(e: Engine) {
    && e.stored.Some? && e.stored.value.lastLsn == e.lastApplied
    && (!e.fired && !e.stopped ==> e.stored.value.generation == e.generation)
  }

  /** The position moves only with a write of the state file, which keeps its dirty flag. */
  lemma StepStores(e: Engine, ev: Wire, o: Outcome)
    ensures var e' := Step(e, ev, o);
      if e'.lastApplied == e.lastApplied then e'.stored == e.stored
      else e'.stored == Some(SyncState(e'.lastApplied, e'.generation, e.stored.Some? && e.stored.value.dirty))
  {
  }

  /**
   * Whatever arrives and whatever fails, the state file names the engine's own position, so a node
   * that dies and resumes from it goes on where it stood; and no event touches the dirty flag.
   */
  lemma {:induction false} StoredIsPosition(e: Engine, deliveries: seq<(Wire, Outcome)>)
    requires StoreExact(e)
    ensures StoreExact(Run(e, deliveries)) && Run(e, deliveries).stored.value.dirty == e.stored.value.dirty
    decreases |deliveries|
  {
    if deliveries != [] {
      StepStores(e, deliveries[0].0, deliveries[0].1);
      StepKeepsGeneration(e, deliveries[0].0, deliveries[0].1);
      hide Step;
      StoredIsPosition(Step(e, deliveries[0].0, deliveries[0].1), deliveries[1..]);
    }
  }

  /** A live engine that did not move kept its generation, and one that came to rest stays at rest. */
  lemma StepKeepsGeneration(e: Engine, ev: Wire, o: Outcome)
    ensures var e' := Step(e, ev, o);
      !e'.fired && !e'.stopped ==>
        !e.fired && !e.stopped && (e'.lastApplied == e.lastApplied ==> e'.generation == e.generation)
  {
  }

  lemma StepKeepsStoreExact(e: Engine, ev: Wire, o: Outcome)
    requires StoreExact(e)
    ensures StoreExact(Step(e, ev, o))
  {
    StoredIsPosition(e, [(ev, o)]);
  }

  // ---- A snapshot that names the wrong generation ----

  /** The first marker after the cursor is at LSN m, and its generation is not above the engine's. */
  predicate BehindMarker(e: Engine, log: seq<Event>, m: nat) {
    && e.lastApplied < m <= |log| && log[m - 1].Rotate? && log[m - 1].generation <= e.generation
    && NoRotate(log[e.lastApplied..m - 1])
  }

  lemma StepStaysBehind(e: Engine, ev: Wire, o: Outcome, log: seq<Event>, m: nat)
    requires BehindMarker(e, log, m) && Canonical(log, ev)
    ensures BehindMarker(Step(e, ev, o), log, m)
    ensures !e.stopped && !e.fired && ev == ToWire(log[m - 1]) && log[m - 1].lsn == m == e.lastApplied + 1 ==>
      Step(e, ev, o).fired
  {
    var e' := Step(e, ev, o);
    var n := e.lastApplied;
    if n + 1 < m {
      assert log[n..m - 1][0] == log[n];
      assert log[n + 1..m - 1] == log[n..m - 1][1..];
    }
  }

  /**
   * An engine that starts below a marker with that marker's generation already - a snapshot taken
   * after a crash between marker and meta file - never gets past the marker, whatever arrives in
   * whatever order; the marker itself makes it rebootstrap.
   */
  lemma {:induction false} WrongGenerationNeverPasses(e: Engine, deliveries: seq<(Wire, Outcome)>, log: seq<Event>,
      m: nat)
    requires BehindMarker(e, log, m) && forall d <- deliveries :: Canonical(log, d.0)
    ensures Run(e, deliveries).lastApplied < m
    decreases |deliveries|
  {
    if deliveries != [] {
      var d := deliveries[0];
      assert d in deliveries;
      StepStaysBehind(e, d.0, d.1, log, m);
      WrongGenerationNeverPasses(Step(e, d.0, d.1), deliveries[1..], log, m);
    }
  }
}
