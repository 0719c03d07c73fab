// Coordinator, network and one node as a state machine: every interleaving of adds, rotations,
// drains, live events, keepalives, polls, stream losses, restarts and snapshot bootstraps.
module Replication {
  import opened Texts
  import opened WalSpec
  import Coordinator
  import opened SyncEngine
  import opened NodeConnection

  const DRAIN_BATCH_SIZE: nat := 1000
  const MAX_POLL_EVENTS: nat := 10_000

  // A stream or a poll answer, from the coordinator's queue to the node's apply chain.
  datatype Source = Source(
    request: nat,            // the node's cursor when it asked
    conn: Connection,
    handed: nat,             // written messages that arrived and were enqueued on the apply chain
    processed: nat,          // ... and were applied
    // bookkeeping of the proof
    subscribedAt: nat,       // coordinator lastLsn when the request was accepted
    sent: nat,               // log position up to which live events have left the queue
    clean: bool)             // accepted, and no read of its own drain fell below the retention floor

  datatype Net = Net(
    wal: Wal,
    lastBackup: nat,
    sources: seq<Source>,
    chain: seq<(nat, Wire)>,       // apply chain: source number and event
    engine: Engine,
    catchingUp: bool,
    snapshot: Option<(nat, nat)>,  // lastBackupLsn and generation of the snapshot in hand
    // bookkeeping of the proof
    accepted: set<nat>,            // lastLsn at every Subscribe accepted since the last bootstrap
    excused: bool)                 // something happened that entitles the engine to rebootstrap

  // What a crashing coordinator had made durable without telling anyone.
  datatype Lost = Nothing | LostEntry(item: Text) | LostMarker

  datatype Action =
    | Add(item: Text, refused: bool)
    | RotateNow(deleted: seq<nat>)
    | RestartCoordinator(lost: Lost)
    | Subscribe(request: nat)
    | Poll(request: nat, maxEvents: nat)
    | DrainRead(i: nat)
    | DrainWrite(i: nat)
    | SendNext(i: nat)
    | KeepaliveTick(i: nat)
    | CloseSource(i: nat)
    | Arrive(i: nat)
    | ApplyNext(o: Outcome)
    | TakeSnapshot
    | BeginBootstrap
    | Install

  function Broadcast(sources: seq<Source>, out: Wire): seq<Source> {
    seq(|sources|, i requires 0 <= i < |sources| => sources[i].(conn := Enqueue(sources[i].conn, Send(out))))
  }

  function CloseAll(sources: seq<Source>): seq<Source> {
    seq(|sources|, i requires 0 <= i < |sources| => sources[i].(conn := sources[i].conn.(closed := true)))
  }

  /** The item check of core's applyEntry. */
  predicate ApplyEntryAccepts(item: Text) {
    && !Blank(item)
    && CARRIAGE_RETURN !in item && NEWLINE !in item && NUL !in item
    && |item| <= MAX_ITEM_LENGTH
  }

  /** The disk and the revoker do their part: only the engine's own checks can fail. */
  predicate Healthy(ev: Wire, o: Outcome) {
    o.rotated && o.persisted && (ev.EntryMsg? && ApplyEntryAccepts(ev.item) ==> o.applied)
  }

  function Answer(request: nat, messages: seq<Wire>, lastLsn: nat, served: bool): Source {
    Source(request, Connection(request, true, [], messages), 0, 0, lastLsn, lastLsn, served)
  }

  function PollSize(maxEvents: nat): nat {
    var wanted := if maxEvents > 0 then maxEvents else DRAIN_BATCH_SIZE;
    if wanted < MAX_POLL_EVENTS then wanted else MAX_POLL_EVENTS
  }

  /** A batch read with a limit of n + 1: its first n events, and whether there are more. */
  function FirstPage(batch: seq<Event>, n: nat): (seq<Event>, bool) {
    if |batch| > n then (batch[..n], true) else (batch, false)
  }

  /** One page of PollDeltas, and whether more is available: one event more than the page is read. */
  function PollPage(w: Wal, request: nat, maxEvents: nat): (seq<Event>, bool)
    requires |w.home| == |w.log|
  {
    FirstPage(ReadSince(w, request, PollSize(maxEvents) + 1), PollSize(maxEvents))
  }

  ghost predicate Enabled(s: Net, a: Action) {
    && |s.wal.home| == |s.wal.log|
    && match a
      case Add(item, _) => ValidItem(item)
      case RotateNow(deleted) =>
        forall j :: 0 <= j < |deleted| ==>
          Deletable(AppendRotate(s.wal, s.wal.generation + 1), s.wal.generation, |s.wal.log| + 1, deleted[j])
      case RestartCoordinator(lost) => lost.LostEntry? ==> ValidItem(lost.item)
      case Subscribe(request) => s.engine.initialLsn <= request <= s.engine.lastApplied
      case Poll(request, _) => s.engine.initialLsn <= request <= s.engine.lastApplied
      case DrainRead(i) => i < |s.sources| && !s.sources[i].conn.closed
        && s.sources[i].conn.queue != [] && s.sources[i].conn.queue[0].Drain? && s.sources[i].conn.queue[0].batch == []
      case DrainWrite(i) => i < |s.sources| && !s.sources[i].conn.closed
        && s.sources[i].conn.queue != [] && s.sources[i].conn.queue[0].Drain? && s.sources[i].conn.queue[0].batch != []
      case SendNext(i) => i < |s.sources| && !s.sources[i].conn.closed
        && s.sources[i].conn.queue != [] && s.sources[i].conn.queue[0].Send?
      case KeepaliveTick(i) => i < |s.sources|
      case CloseSource(i) => i < |s.sources|
      case Arrive(i) => i < |s.sources| && s.sources[i].handed < |s.sources[i].conn.written|
      case ApplyNext(_) => s.chain != [] && s.chain[0].0 < |s.sources|
      case TakeSnapshot => true
      case BeginBootstrap => s.snapshot.Some?
      case Install => s.snapshot.Some? && s.catchingUp && s.engine.stopped
  }

  /** One read of the drain loop: the batch, or its end when nothing is left. */
  function DrainOnce(w: Wal, c: Connection): Connection
    requires |w.home| == |w.log| && c.queue != [] && c.queue[0].Drain?
  {
    var from := c.queue[0].from;
    var batch := ReadSince(w, from, DRAIN_BATCH_SIZE);
    if batch == [] then c.(queue := c.queue[1..]) else c.(queue := [Drain(from, batch)] + c.queue[1..])
  }

  function DrainStep(w: Wal, x: Source): Source
    requires |w.home| == |w.log| && x.conn.queue != [] && x.conn.queue[0].Drain?
  {
    x.(conn := DrainOnce(w, x.conn), clean := x.clean && CanServeFrom(w, x.conn.queue[0].from))
  }

  function DrainEvent(c: Connection): Connection
    requires c.queue != [] && c.queue[0].Drain? && c.queue[0].batch != []
  {
    var e := c.queue[0].batch[0];
    WriteDirect(c, e).(queue := [Drain(e.lsn, c.queue[0].batch[1..])] + c.queue[1..])
  }

  ghost function Do(s: Net, a: Action): Net
    requires Enabled(s, a)
  {
    match a
    case Add(item, refused) =>
      var w := WalSpec.AppendEntry(s.wal, item);
      var e := w.log[|s.wal.log|];
      s.(wal := if refused then AppendTombstone(w) else w, sources := Broadcast(s.sources, ToWire(e)))
    case RotateNow(deleted) =>
      var marked := AppendRotate(s.wal, s.wal.generation + 1);
      s.(wal := UnlinkAll(marked, deleted), lastBackup := |marked.log|,
         sources := Broadcast(s.sources, ToWire(marked.log[|s.wal.log|])))
    case RestartCoordinator(lost) =>
      var w := match lost
        case Nothing => s.wal
        case LostEntry(item) => WalSpec.AppendEntry(s.wal, item)
        case LostMarker => AppendRotate(s.wal, s.wal.generation + 1);
      s.(wal := w.(deletedMax := s.lastBackup), sources := CloseAll(s.sources))
    case Subscribe(request) =>
      if CanServeFrom(s.wal, request) then
        var n := |s.wal.log|;
        var conn := Connection(request, false, [Drain(request, []), Send(Keepalive(n))], []);
        s.(sources := s.sources + [Source(request, conn, 0, 0, n, n, true)], accepted := s.accepted + {n})
      else s.(sources := s.sources + [Answer(request, [Resnapshot], |s.wal.log|, false)], excused := true)
    case Poll(request, maxEvents) =>
      if CanServeFrom(s.wal, request) then
        s.(sources := s.sources + [Answer(request, Wired(PollPage(s.wal, request, maxEvents).0), |s.wal.log|, true)])
      else s.(sources := s.sources + [Answer(request, [Resnapshot], |s.wal.log|, false)], excused := true)
    case DrainRead(i) =>
      var x := DrainStep(s.wal, s.sources[i]);
      s.(sources := s.sources[i := x], excused := s.excused || !x.clean)
    case DrainWrite(i) => s.(sources := s.sources[i := s.sources[i].(conn := DrainEvent(s.sources[i].conn))])
    case SendNext(i) =>
      var x := s.sources[i];
      var out := x.conn.queue[0].out;
      s.(sources := s.sources[i := x.(conn := Write(x.conn, out).(queue := x.conn.queue[1..]),
                                      sent := if CarriesLsn(out) then out.lsn.value else x.sent)])
    case KeepaliveTick(i) =>
      s.(sources := s.sources[i := s.sources[i].(conn := Enqueue(s.sources[i].conn, Send(Keepalive(|s.wal.log|))))])
    case CloseSource(i) => s.(sources := s.sources[i := s.sources[i].(conn := s.sources[i].conn.(closed := true))])
    case Arrive(i) =>
      var x := s.sources[i];
      s.(chain := s.chain + [(i, x.conn.written[x.handed])], sources := s.sources[i := x.(handed := x.handed + 1)])
    case ApplyNext(o) =>
      var (i, ev) := s.chain[0];
      var e := Step(s.engine, ev, o);
      s.(chain := s.chain[1..], engine := e,
          sources := s.sources[i := s.sources[i].(processed := s.sources[i].processed + 1)],
         catchingUp := s.catchingUp && !Opens(s.engine, ev),
         excused := s.excused || !Healthy(ev, o))
    case TakeSnapshot => s.(snapshot := Some((s.lastBackup, s.wal.generation)))
    case BeginBootstrap => s.(catchingUp := true, engine := s.engine.(stopped := true))
    case Install =>
      var (point, generation) := s.snapshot.value;
      s.(engine := Engine(point, point, generation, false, false, false, Some(SyncState(point, generation, false)), []),
         sources := [], chain := [], snapshot := None, accepted := {},
         excused := point > |s.wal.log| || generation != Gen(s.wal.log[..point]))
  }

  ghost predicate Steps(s: Net, a: Action, s': Net) {
    Enabled(s, a) && s' == Do(s, a)
  }

  // ---- The coordinator's log ----

  ghost predicate LogInv(w: Wal, lastBackup: nat) {
    && Coordinator.LogShape(w)
    && Coordinator.FilesKept(w, lastBackup)
    && Coordinator.MetaBehind(w.log, Coordinator.Meta(0, 0, lastBackup))
    && w.generation == Gen(w.log)
    && w.deletedMax <= lastBackup
    && (forall i :: w.deletedMax <= i < |w.log| ==> w.home[i] in w.files)
  }

  lemma EntryKeepsLog(w: Wal, lastBackup: nat, item: Text)
    requires LogInv(w, lastBackup) && ValidItem(item)
    ensures var w' := WalSpec.AppendEntry(w, item);
      LogInv(w', lastBackup) && w'.log == w.log + [Entry(|w.log| + 1, w.generation, item)]
  {
    hide Coordinator.LogShape, Coordinator.FilesKept, Gen, ValidItem;
    Coordinator.AppendKeepsDurable(w, Coordinator.Meta(0, 0, lastBackup), Entry(|w.log| + 1, w.generation, item));
  }

  lemma TombstoneKeepsLog(w: Wal, lastBackup: nat)
    requires LogInv(w, lastBackup) && lastBackup < |w.log| && w.log[|w.log| - 1].Entry?
    ensures LogInv(AppendTombstone(w), lastBackup)
  {
    hide Coordinator.LogShape, Coordinator.FilesKept, Gen;
    Coordinator.TombstoneKeepsDurable(w, Coordinator.Meta(0, 0, lastBackup));
  }

  lemma MarkerKeepsLog(w: Wal, lastBackup: nat)
    requires LogInv(w, lastBackup)
    ensures var w' := AppendRotate(w, w.generation + 1);
      LogInv(w', lastBackup) && w'.log == w.log + [Rotate(|w.log| + 1, w.generation + 1)]
  {
    hide Coordinator.LogShape, Coordinator.FilesKept, Gen;
    var e := Rotate(|w.log| + 1, w.generation + 1);
    Coordinator.AppendKeepsDurable(w, Coordinator.Meta(0, 0, lastBackup), e);
    Coordinator.FilesIgnoreMemory(Append(w, e), AppendRotate(w, w.generation + 1), lastBackup);
  }

  /** Right after a marker, the consistency point moves to it. */
  lemma PointMovesToMarker(w: Wal, lastBackup: nat)
    requires LogInv(w, lastBackup) && w.log != [] && w.log[|w.log| - 1].Rotate?
    ensures LogInv(w, |w.log|)
  {
    hide Coordinator.LogShape;
  }

  lemma {:induction false} RetentionKeepsLog(w: Wal, deleted: seq<nat>)
    requires LogInv(w, |w.log|)
    requires forall j :: 0 <= j < |deleted| ==> deleted[j] + 1 < Gen(w.log)
    ensures LogInv(UnlinkAll(w, deleted), |w.log|)
  {
    hide Coordinator.LogShape, Coordinator.FilesKept, Coordinator.MetaBehind, Gen;
    if deleted != [] {
      var front, g := deleted[..|deleted| - 1], deleted[|deleted| - 1];
      RetentionKeepsLog(w, front);
      var w' := UnlinkAll(w, front);
      Coordinator.UnlinkKeepsDurable(w', Coordinator.Meta(0, 0, |w.log|), g);
      assert forall i :: FileMax(w'.home, g, |w'.home|) <= i < |w'.log| ==> w'.home[i] != g;
    }
  }

  lemma RotationKeepsLog(w: Wal, lastBackup: nat, deleted: seq<nat>)
    requires LogInv(w, lastBackup)
    requires forall j :: 0 <= j < |deleted| ==> deleted[j] < w.generation
    ensures var marked := AppendRotate(w, w.generation + 1);
      marked.log == w.log + [Rotate(|w.log| + 1, w.generation + 1)] && LogInv(UnlinkAll(marked, deleted), |marked.log|)
  {
    hide Coordinator.LogShape, Coordinator.FilesKept, Coordinator.MetaBehind;
    MarkerKeepsLog(w, lastBackup);
    var marked := AppendRotate(w, w.generation + 1);
    PointMovesToMarker(marked, lastBackup);
    RetentionKeepsLog(marked, deleted);
  }

  lemma RestartKeepsLog(w: Wal, lastBackup: nat)
    requires LogInv(w, lastBackup)
    ensures LogInv(w.(deletedMax := lastBackup), lastBackup)
  {
    Coordinator.FilesIgnoreMemory(w, w.(deletedMax := lastBackup), lastBackup);
  }

  /** A read is never empty before the end of the log: retention spares the newest file. */
  lemma ReadIsNotEmpty(w: Wal, lastBackup: nat, from: nat)
    requires LogInv(w, lastBackup) && from < |w.log|
    ensures ReadSince(w, from, DRAIN_BATCH_SIZE) != []
  {
    Coordinator.NewestHome(w, lastBackup);
    hide LogInv;
    assert Between(w, from, |w.log|) == Between(w, from, |w.log| - 1) + [w.log[|w.log| - 1]];
  }

  /** Whatever retention deleted, a read is in order. */
  lemma ReadIsOrdered(w: Wal, from: nat)
    requires Ordered(w.log) && |w.home| == |w.log| && from <= |w.log|
    ensures BatchOk(ReadSince(w, from, DRAIN_BATCH_SIZE), from, w.log, false)
  {
    BetweenIncreasing(w, from, |w.log|);
    hide Between, Ordered;
  }

  /** Above the floor a read is a run. */
  lemma ReadIsRun(w: Wal, from: nat)
    requires WellFormed(w) && from <= |w.log| && CanServeFrom(w, from)
    ensures BatchOk(ReadSince(w, from, DRAIN_BATCH_SIZE), from, w.log, true)
  {
    ServablePage(w, from, DRAIN_BATCH_SIZE);
    hide ReadSince;
  }

  /** Reading finds the end of the log whatever retention deleted, and reads a run above the floor. */
  lemma DrainReads(w: Wal, lastBackup: nat, from: nat)
    requires LogInv(w, lastBackup) && from <= |w.log|
    ensures var batch := ReadSince(w, from, DRAIN_BATCH_SIZE);
      && (batch == [] ==> from == |w.log|)
      && BatchOk(batch, from, w.log, CanServeFrom(w, from))
  {
    LogIsOrdered(w, lastBackup);
    hide LogInv, BatchOk, ReadSince, WellFormed, Ordered;
    if from < |w.log| {
      ReadIsNotEmpty(w, lastBackup, from);
    }
    if CanServeFrom(w, from) {
      NetIsWellFormed(w, lastBackup);
      ReadIsRun(w, from);
    } else {
      ReadIsOrdered(w, from);
    }
  }

  lemma NetIsWellFormed(w: Wal, lastBackup: nat)
    requires LogInv(w, lastBackup)
    ensures WellFormed(w)
  {
    forall i | 0 <= i < |w.log| ensures w.home[i] <= w.generation {
      GenMonotone(w.log, i);
    }
  }

  // ---- One source ----

  /** The last LSN among the written messages, the request before any. */
  function LastOf(request: nat, written: seq<Wire>): nat {
    if written == [] then request
    else if CarriesLsn(written[|written| - 1]) then written[|written| - 1].lsn.value
    else LastOf(request, written[..|written| - 1])
  }

  /** A written message is canonical, later than every earlier one; a keepalive comes after all it names. */
  predicate MessageOk(request: nat, subscribedAt: nat, written: seq<Wire>, log: seq<Event>, j: nat)
    requires j < |written|
  {
    var before := LastOf(request, written[..j]);
    match written[j]
    case NoEvent => false
    case Keepalive(c) => subscribedAt <= c <= before
    case Resnapshot => true
    case EntryMsg(lsn, _, _) => lsn.Some? && before < lsn.value <= |log| && written[j] == ToWire(log[lsn.value - 1])
    case RotateMsg(lsn, _) => lsn.Some? && before < lsn.value <= |log| && written[j] == ToWire(log[lsn.value - 1])
  }

  /** A message that follows its predecessor without a gap. */
  predicate Next(request: nat, written: seq<Wire>, j: nat)
    requires j < |written|
  {
    && !written[j].Resnapshot?
    && (CarriesLsn(written[j]) ==> written[j].lsn.value == LastOf(request, written[..j]) + 1)
  }

  /** A batch of the drain: log events in order above the cursor, consecutive when `run`. */
  predicate BatchOk(batch: seq<Event>, from: nat, log: seq<Event>, run: bool) {
    && (forall j :: 0 <= j < |batch| ==> from < batch[j].lsn <= |log| && batch[j] == log[batch[j].lsn - 1])
    && (forall i, j :: 0 <= i < j < |batch| ==> batch[i].lsn < batch[j].lsn)
    && (run ==> forall j :: 0 <= j < |batch| ==> batch[j].lsn == from + 1 + j)
  }

  /** The queue holds the log's events from n on, in order, keepalives naming only what precedes them. */
  predicate Pending(queue: seq<Task>, n: nat, subscribedAt: nat, log: seq<Event>)
    decreases |queue|
  {
    if queue == [] then n == |log|
    else
      && queue[0].Send?
      && match queue[0].out
         case Keepalive(c) => subscribedAt <= c <= n && Pending(queue[1..], n, subscribedAt, log)
         case EntryMsg(_, _, _) => n < |log| && queue[0].out == ToWire(log[n])
           && Pending(queue[1..], n + 1, subscribedAt, log)
         case RotateMsg(_, _) => n < |log| && queue[0].out == ToWire(log[n])
           && Pending(queue[1..], n + 1, subscribedAt, log)
         case _ => false
  }

  predicate IsKeepalive(task: Task) {
    task.Send? && task.out.Keepalive?
  }

  /** The keepalive behind the backlog was written or still stands in the queue. */
  ghost predicate KeepaliveDue(c: Connection) {
    || (exists j :: 0 <= j < |c.written| && c.written[j].Keepalive?)
    || (exists j :: 0 <= j < |c.queue| && IsKeepalive(c.queue[j]))
  }

  ghost predicate QueueOk(x: Source, log: seq<Event>, clean: bool) {
    && x.conn.lastWritten == LastOf(x.request, x.conn.written) <= |log|
    && KeepaliveDue(x.conn)
    && if x.conn.queue != [] && x.conn.queue[0].Drain? then
         && x.sent == x.subscribedAt
         && x.conn.queue[0].from == x.conn.lastWritten
         && BatchOk(x.conn.queue[0].batch, x.conn.lastWritten, log, clean)
         && Pending(x.conn.queue[1..], x.sent, x.subscribedAt, log)
       else
         && x.sent <= x.conn.lastWritten
         && Pending(x.conn.queue, x.sent, x.subscribedAt, log)
  }

  predicate MessagesOk(x: Source, log: seq<Event>, clean: bool) {
    forall j :: 0 <= j < |x.conn.written| ==>
      MessageOk(x.request, x.subscribedAt, x.conn.written, log, j) && (clean ==> Next(x.request, x.conn.written, j))
  }

  /**
   * What holds of every stream and poll answer: its LSNs strictly increase, and while nothing
   * excused a gap (`clean`) they are request + 1, request + 2, ... without one.
   */
  ghost predicate SourceOk(x: Source, log: seq<Event>, clean: bool) {
    && x.processed <= x.handed <= |x.conn.written|
    && x.subscribedAt <= |log|
    && MessagesOk(x, log, clean)
    && (!x.conn.closed ==> QueueOk(x, log, clean))
  }

  lemma LastOfAppend(request: nat, written: seq<Wire>, out: Wire)
    ensures LastOf(request, written + [out]) == if CarriesLsn(out) then out.lsn.value else LastOf(request, written)
  {
    assert (written + [out])[..|written|] == written;
  }

  lemma {:induction false} PendingEvent(queue: seq<Task>, n: nat, subscribedAt: nat, log: seq<Event>, e: Event)
    requires Pending(queue, n, subscribedAt, log)
    ensures Pending(queue + [Send(ToWire(e))], n, subscribedAt, log + [e])
    decreases |queue|
  {
    var queue' := queue + [Send(ToWire(e))];
    if queue == [] {
      assert queue'[1..] == [];
    } else {
      assert queue'[1..] == queue[1..] + [Send(ToWire(e))];
      if queue[0].out.Keepalive? {
        PendingEvent(queue[1..], n, subscribedAt, log, e);
      } else {
        PendingEvent(queue[1..], n + 1, subscribedAt, log, e);
      }
    }
  }

  lemma {:induction false} PendingKeepalive(queue: seq<Task>, n: nat, subscribedAt: nat, log: seq<Event>)
    requires Pending(queue, n, subscribedAt, log) && subscribedAt <= |log|
    ensures Pending(queue + [Send(Keepalive(|log|))], n, subscribedAt, log)
    decreases |queue|
  {
    var queue' := queue + [Send(Keepalive(|log|))];
    if queue == [] {
      assert queue'[1..] == [];
    } else {
      assert queue'[1..] == queue[1..] + [Send(Keepalive(|log|))];
      if queue[0].out.Keepalive? {
        PendingKeepalive(queue[1..], n, subscribedAt, log);
      } else {
        PendingKeepalive(queue[1..], n + 1, subscribedAt, log);
      }
    }
  }

  lemma MessagesGrow(x: Source, log: seq<Event>, clean: bool, e: Event)
    requires MessagesOk(x, log, clean)
    ensures MessagesOk(x, log + [e], clean)
  {
    hide LastOf, Next;
    forall j | 0 <= j < |x.conn.written| ensures MessageOk(x.request, x.subscribedAt, x.conn.written, log + [e], j) {
      assert MessageOk(x.request, x.subscribedAt, x.conn.written, log, j);
    }
  }

  /** Tasks join the queue at its end, and only a drain leaves it, from the front, unless it was written. */
  lemma DueStays(c: Connection, c': Connection, gone: nat)
    requires KeepaliveDue(c) && c.written <= c'.written
    requires gone <= 1 && gone <= |c.queue| && c.queue[gone..] <= c'.queue
    requires gone == 1 && IsKeepalive(c.queue[0]) ==> c.written + [c.queue[0].out] <= c'.written
    ensures KeepaliveDue(c')
  {
    if j :| 0 <= j < |c.written| && c.written[j].Keepalive? {
      assert c'.written[j].Keepalive?;
    } else {
      var j :| 0 <= j < |c.queue| && IsKeepalive(c.queue[j]);
      if j < gone {
        assert c'.written[|c.written|] == c.queue[0].out;
      } else {
        assert c'.queue[j - gone] == c.queue[gone..][j - gone] == c.queue[j];
      }
    }
  }

  /** The log grows and the live event is enqueued - or the source is closed and gets nothing. */
  lemma LiveEventKeepsSource(x: Source, log: seq<Event>, clean: bool, e: Event)
    requires SourceOk(x, log, clean)
    ensures SourceOk(x.(conn := Enqueue(x.conn, Send(ToWire(e)))), log + [e], clean)
  {
    hide LastOf, Pending, ToWire, KeepaliveDue;
    var x' := x.(conn := Enqueue(x.conn, Send(ToWire(e))));
    MessagesGrow(x, log, clean, e);
    if !x.conn.closed {
      DueStays(x.conn, x'.conn, 0);
      var q := x.conn.queue;
      if q != [] && q[0].Drain? {
        PendingEvent(q[1..], x.sent, x.subscribedAt, log, e);
        assert (q + [Send(ToWire(e))])[1..] == q[1..] + [Send(ToWire(e))];
      } else {
        PendingEvent(q, x.sent, x.subscribedAt, log, e);
      }
    }
  }

  lemma KeepaliveKeepsSource(x: Source, log: seq<Event>, clean: bool)
    requires SourceOk(x, log, clean)
    ensures SourceOk(x.(conn := Enqueue(x.conn, Send(Keepalive(|log|)))), log, clean)
  {
    hide LastOf, Pending, KeepaliveDue;
    if !x.conn.closed {
      DueStays(x.conn, Enqueue(x.conn, Send(Keepalive(|log|))), 0);
      var q := x.conn.queue;
      if q != [] && q[0].Drain? {
        PendingKeepalive(q[1..], x.sent, x.subscribedAt, log);
        assert (q + [Send(Keepalive(|log|))])[1..] == q[1..] + [Send(Keepalive(|log|))];
      } else {
        PendingKeepalive(q, x.sent, x.subscribedAt, log);
      }
    }
  }

  /** One more written message. */
  lemma MessageAppended(request: nat, subscribedAt: nat, written: seq<Wire>, out: Wire, log: seq<Event>, j: nat)
    requires j <= |written|
    ensures j < |written| ==>
      && MessageOk(request, subscribedAt, written + [out], log, j) == MessageOk(request, subscribedAt, written, log, j)
      && Next(request, written + [out], j) == Next(request, written, j)
    ensures (written + [out])[..j] == written[..j]
  {
    assert (written + [out])[..j] == written[..j];
  }

  lemma WrittenKeepsMessages(x: Source, out: Wire, log: seq<Event>, clean: bool)
    requires MessagesOk(x, log, clean)
    requires MessageOk(x.request, x.subscribedAt, x.conn.written + [out], log, |x.conn.written|)
    requires clean ==> Next(x.request, x.conn.written + [out], |x.conn.written|)
    ensures MessagesOk(x.(conn := x.conn.(written := x.conn.written + [out])), log, clean)
  {
    hide MessageOk, Next, LastOf;
    forall j | 0 <= j <= |x.conn.written| {
      MessageAppended(x.request, x.subscribedAt, x.conn.written, out, log, j);
    }
  }

  lemma DrainReadKeepsSource(w: Wal, lastBackup: nat, x: Source, clean: bool)
    requires LogInv(w, lastBackup) && SourceOk(x, w.log, clean) && !x.conn.closed
    requires x.conn.queue != [] && x.conn.queue[0].Drain?
    ensures SourceOk(DrainStep(w, x), w.log, clean && CanServeFrom(w, x.conn.queue[0].from))
  {
    DrainReads(w, lastBackup, x.conn.queue[0].from);
    hide LogInv, LastOf, Pending, MessageOk, Next, ReadSince, KeepaliveDue;
    var batch := ReadSince(w, x.conn.queue[0].from, DRAIN_BATCH_SIZE);
    var c := DrainOnce(w, x.conn);
    HeadLeaves(x.conn, c);
    if batch == [] {
      PendingHasNoDrain(c.queue, x.sent, x.subscribedAt, w.log);
    } else {
      assert c.queue[1..] == x.conn.queue[1..];
    }
  }

  /** A drain at the head of the queue is done, or goes on. */
  lemma HeadLeaves(c: Connection, c': Connection)
    requires KeepaliveDue(c) && c.written <= c'.written && c.queue != [] && c.queue[0].Drain?
    requires c'.queue == c.queue[1..] || (c'.queue != [] && c'.queue[1..] == c.queue[1..])
    ensures KeepaliveDue(c')
  {
    if j :| 0 <= j < |c.written| && c.written[j].Keepalive? {
      assert c'.written[j].Keepalive?;
    } else {
      var j :| 0 <= j < |c.queue| && IsKeepalive(c.queue[j]);
      assert c.queue[1..][j - 1] == c.queue[j];
      assert c'.queue == c.queue[1..] || c'.queue[1..][j - 1] == c'.queue[j];
    }
  }

  lemma PendingHasNoDrain(queue: seq<Task>, n: nat, subscribedAt: nat, log: seq<Event>)
    requires Pending(queue, n, subscribedAt, log)
    ensures queue != [] ==> queue[0].Send?
    ensures n <= |log|
    decreases |queue|
  {
    if queue != [] {
      PendingHasNoDrain(queue[1..], if queue[0].out.Keepalive? then n else n + 1, subscribedAt, log);
    }
  }

  lemma DrainWriteKeepsSource(x: Source, log: seq<Event>, clean: bool)
    requires Ordered(log) && SourceOk(x, log, clean) && !x.conn.closed
    requires x.conn.queue != [] && x.conn.queue[0].Drain? && x.conn.queue[0].batch != []
    ensures SourceOk(x.(conn := DrainEvent(x.conn)), log, clean)
  {
    hide Pending, KeepaliveDue;
    var e := x.conn.queue[0].batch[0];
    var written := x.conn.written;
    assert (written + [ToWire(e)])[..|written|] == written;
    WrittenKeepsMessages(x, ToWire(e), log, clean);
    LastOfAppend(x.request, written, ToWire(e));
    var c := DrainEvent(x.conn);
    assert c.queue[1..] == x.conn.queue[1..];
    HeadLeaves(x.conn, c);
    assert MessagesOk(x.(conn := c), log, clean);
  }

  /** The message at the head of the queue follows what was written, unless the write drops it. */
  lemma SentFollows(x: Source, log: seq<Event>)
    requires Ordered(log) && QueueOk(x, log, true) && x.conn.queue != [] && x.conn.queue[0].Send?
    requires var out := x.conn.queue[0].out; CarriesLsn(out) ==> x.conn.lastWritten < out.lsn.value
    ensures var written := x.conn.written + [x.conn.queue[0].out]; var n := |x.conn.written|;
      MessageOk(x.request, x.subscribedAt, written, log, n) && Next(x.request, written, n)
  {
    var out, written := x.conn.queue[0].out, x.conn.written;
    PendingHasNoDrain(x.conn.queue[1..], if out.Keepalive? then x.sent else x.sent + 1, x.subscribedAt, log);
    assert (written + [out])[..|written|] == written;
  }

  lemma SendKeepsSource(x: Source, log: seq<Event>, clean: bool)
    requires Ordered(log) && SourceOk(x, log, clean) && !x.conn.closed
    requires x.conn.queue != [] && x.conn.queue[0].Send?
    ensures var out := x.conn.queue[0].out;
      SourceOk(x.(conn := Write(x.conn, out).(queue := x.conn.queue[1..]),
                  sent := if CarriesLsn(out) then out.lsn.value else x.sent), log, clean)
  {
    hide MessageOk, Next, LastOf, KeepaliveDue;
    var out := x.conn.queue[0].out;
    DueStays(x.conn, Write(x.conn, out).(queue := x.conn.queue[1..]), 1);
    PendingHasNoDrain(x.conn.queue[1..], if out.Keepalive? then x.sent else x.sent + 1, x.subscribedAt, log);
    LastOfAppend(x.request, x.conn.written, out);
    if !(CarriesLsn(out) && out.lsn.value <= x.conn.lastWritten) {
      SentFollows(x, log);
      WrittenKeepsMessages(x, out, log, clean);
    }
  }

  /** One event more than the page is read: it is there exactly when events remain after the page. */
  lemma TakePage(log: seq<Event>, request: nat, n: nat, batch: seq<Event>)
    requires request <= |log| && n > 0
    requires batch == log[request..if request + n + 1 < |log| then request + n + 1 else |log|]
    ensures var (events, more) := FirstPage(batch, n);
      && request + |events| <= |log| && events == log[request..request + |events|]
      && (more <==> request + |events| < |log|)
      && (events == [] <==> request == |log|)
      && |events| <= n && (|events| < n ==> request + |events| == |log|)
  {
  }

  /**
   * A page is the next events of the log, as many as asked for - 1000 when not said - and at most
   * 10000, fewer only at the end of the log; more is available exactly when events remain after it.
   */
  lemma PageIsNext(w: Wal, lastBackup: nat, request: nat, maxEvents: nat)
    requires LogInv(w, lastBackup) && request <= |w.log| && CanServeFrom(w, request)
    ensures var (events, more) := PollPage(w, request, maxEvents);
      && request + |events| <= |w.log| && events == w.log[request..request + |events|]
      && (more <==> request + |events| < |w.log|)
      && (events == [] <==> request == |w.log|)
      && |events| <= 10_000 && (maxEvents > 0 ==> |events| <= maxEvents) && (maxEvents == 0 ==> |events| <= 1000)
      && (|events| < 10_000 && |events| < (if maxEvents > 0 then maxEvents else 1000) ==>
          request + |events| == |w.log|)
  {
    hide LogInv, WellFormed, ReadSince, FirstPage;
    LogBounds(w, lastBackup);
    NetIsWellFormed(w, lastBackup);
    var n := PollSize(maxEvents);
    ServablePage(w, request, n + 1);
    TakePage(w.log, request, n, ReadSince(w, request, n + 1));
  }

  /** A poll answer is a run of the log from its request, when the request could be served. */
  lemma PollIsSource(w: Wal, lastBackup: nat, request: nat, maxEvents: nat)
    requires LogInv(w, lastBackup) && request <= |w.log| && CanServeFrom(w, request)
    ensures SourceOk(Answer(request, Wired(PollPage(w, request, maxEvents).0), |w.log|, true), w.log, true)
  {
    hide LogInv, ReadSince, WellFormed, SourceOk, PollPage, Ordered;
    LogBounds(w, lastBackup);
    LogIsOrdered(w, lastBackup);
    PageIsNext(w, lastBackup, request, maxEvents);
    PageIsSource(w.log, request, PollPage(w, request, maxEvents).0);
  }

  lemma PageIsSource(log: seq<Event>, request: nat, page: seq<Event>)
    requires Ordered(log) && request + |page| <= |log| && page == log[request..request + |page|]
    ensures SourceOk(Answer(request, Wired(page), |log|, true), log, true)
  {
    hide LastOf;
    var written := Wired(page);
    forall j | 0 <= j < |written|
      ensures MessageOk(request, |log|, written, log, j) && Next(request, written, j)
    {
      PageLast(log, request, page, j);
      assert page[j] == log[request + j];
    }
  }

  lemma LogIsOrdered(w: Wal, lastBackup: nat)
    requires LogInv(w, lastBackup)
    ensures Ordered(w.log)
  {
  }

  lemma PageLast(log: seq<Event>, request: nat, page: seq<Event>, j: nat)
    requires Ordered(log) && request + |page| <= |log| && page == log[request..request + |page|] && j <= |page|
    ensures LastOf(request, Wired(page)[..j]) == request + j
  {
    if j > 0 {
      assert Wired(page)[..j][|Wired(page)[..j]| - 1] == ToWire(page[j - 1]);
    } else {
      assert Wired(page)[..j] == [];
    }
  }

  // ---- The whole system ----

  /** What a source still has in the apply chain. */
  function FromSource(chain: seq<(nat, Wire)>, i: nat): seq<Wire>
    decreases |chain|
  {
    if chain == [] then []
    else (if chain[0].0 == i then [chain[0].1] else []) + FromSource(chain[1..], i)
  }

  lemma {:induction false} FromSourceAppend(chain: seq<(nat, Wire)>, d: (nat, Wire), i: nat)
    ensures FromSource(chain + [d], i) == FromSource(chain, i) + if d.0 == i then [d.1] else []
    decreases |chain|
  {
    if chain == [] {
      assert (chain + [d])[1..] == [];
    } else {
      FromSourceAppend(chain[1..], d, i);
      assert (chain + [d])[1..] == chain[1..] + [d];
      var first := if chain[0].0 == i then [chain[0].1] else [];
      var last := if d.0 == i then [d.1] else [];
      assert first + (FromSource(chain[1..], i) + last) == (first + FromSource(chain[1..], i)) + last;
    }
  }

  ghost predicate SourcesOk(s: Net) {
    forall i :: 0 <= i < |s.sources| ==>
      SourceOk(s.sources[i], s.wal.log, s.sources[i].clean) && (s.sources[i].clean || s.excused)
  }

  /** The apply chain is first in, first out for every source. */
  ghost predicate ChainOk(s: Net) {
    && (forall j :: 0 <= j < |s.chain| ==> s.chain[j].0 < |s.sources|)
    && (forall i :: 0 <= i < |s.sources| ==> InChain(s.sources[i], s.chain, i))
  }

  predicate InChain(x: Source, chain: seq<(nat, Wire)>, i: nat) {
    && x.processed <= x.handed <= |x.conn.written|
    && FromSource(chain, i) == x.conn.written[x.processed..x.handed]
  }

  /** A live engine is past everything it processed, whichever source brought it. */
  ghost predicate Progress(s: Net) {
    forall i :: 0 <= i < |s.sources| ==> Passed(s.sources[i], s.engine)
  }

  predicate Passed(x: Source, e: Engine) {
    && x.request <= e.lastApplied
    && (!e.fired && !e.stopped ==>
        x.processed <= |x.conn.written| && LastOf(x.request, x.conn.written[..x.processed]) <= e.lastApplied)
  }

  ghost predicate NodeOk(s: Net) {
    && AppliedPrefix(s.engine, s.wal.log)
    && (s.engine.fired ==> s.excused)
    && (!s.excused && !s.engine.stopped ==> s.engine.generation == Gen(s.wal.log[..s.engine.lastApplied]))
    && (s.snapshot.Some? ==> s.snapshot.value.0 <= |s.wal.log|)
    && StoreOk(s.engine, s.wal.log, s.excused)
  }

  /** A live node's state file names its position, and the generation the log has there. */
  ghost predicate StoreOk(e: Engine, log: seq<Event>, excused: bool) {
    && (e.stored.None? ==> e.stopped)
    && (e.stored.Some? ==> StoreExact(e) && e.lastApplied <= |log|)
    && (e.stored.Some? && !excused ==> e.stored.value.generation == Gen(log[..e.stored.value.lastLsn]))
  }

  /** Only a stream accepted since the bootstrap carries keepalives. */
  predicate Accepted(x: Source, accepted: set<nat>) {
    x.subscribedAt in accepted || (x.conn.closed && forall j :: 0 <= j < |x.conn.written| ==>
      !x.conn.written[j].Keepalive?)
  }

  /** No keepalive of the source was applied yet. */
  predicate Unheard(x: Source) {
    forall j :: 0 <= j < x.processed && j < |x.conn.written| ==> !x.conn.written[j].Keepalive?
  }

  ghost predicate GateOk(s: Net) {
    && (forall i :: 0 <= i < |s.sources| ==> Accepted(s.sources[i], s.accepted))
    && (!s.catchingUp ==> s.engine.gateOpened)
    && (s.catchingUp && !s.engine.fired && !s.engine.stopped ==>
        forall i :: 0 <= i < |s.sources| ==> Unheard(s.sources[i]))
    && (s.engine.gateOpened ==> exists a :: a in s.accepted && a <= s.engine.lastApplied)
  }

  ghost predicate Inv(s: Net) {
    && LogInv(s.wal, s.lastBackup)
    && SourcesOk(s) && ChainOk(s) && Progress(s) && NodeOk(s) && GateOk(s)
  }

  // ---- Steps of the coordinator ----

  lemma NodeKeepsWithLog(s: Net, e: Event)
    requires NodeOk(s)
    ensures NodeOk(s.(wal := s.wal.(log := s.wal.log + [e])))
  {
    var log := s.wal.log + [e];
    var n := s.engine;
    assert log[n.initialLsn..n.lastApplied] == s.wal.log[n.initialLsn..n.lastApplied];
    assert log[..n.lastApplied] == s.wal.log[..n.lastApplied];
    assert StoreOk(n, log, s.excused);
    if n.lastApplied < |s.wal.log| {
      assert log[n.initialLsn..n.lastApplied + 1] == s.wal.log[n.initialLsn..n.lastApplied + 1];
    }
  }

  lemma BroadcastKeepsSources(s: Net, e: Event, out: Wire)
    requires SourcesOk(s) && ChainOk(s) && Progress(s) && GateOk(s) && out == ToWire(e)
    ensures var s' := s.(wal := s.wal.(log := s.wal.log + [e]), sources := Broadcast(s.sources, out));
      SourcesOk(s') && ChainOk(s') && Progress(s') && GateOk(s')
  {
    hide SourceOk, ToWire, FromSource, LastOf;
    forall i | 0 <= i < |s.sources| {
      LiveEventKeepsSource(s.sources[i], s.wal.log, s.sources[i].clean, e);
    }
  }

  /** The parts of the invariant that read the log only. */
  lemma OtherLogFields(s: Net, s': Net)
    requires SourcesOk(s) && ChainOk(s) && Progress(s) && NodeOk(s) && GateOk(s)
    requires s' == s.(wal := s'.wal, lastBackup := s'.lastBackup) && s'.wal.log == s.wal.log
    ensures SourcesOk(s') && ChainOk(s') && Progress(s') && NodeOk(s') && GateOk(s')
  {
  }

  lemma AddKeepsInv(s: Net, item: Text, refused: bool)
    requires Inv(s) && Enabled(s, Add(item, refused))
    ensures Inv(Do(s, Add(item, refused)))
  {
    hide LogInv, SourcesOk, ChainOk, Progress, NodeOk, GateOk, ValidItem, Broadcast;
    var s' := Do(s, Add(item, refused));
    var w := WalSpec.AppendEntry(s.wal, item);
    LogBounds(s.wal, s.lastBackup);
    EntryKeepsLog(s.wal, s.lastBackup, item);
    if refused {
      TombstoneKeepsLog(w, s.lastBackup);
    }
    var e := s'.wal.log[|s.wal.log|];
    assert s'.wal.log == s.wal.log + [e];
    NodeKeepsWithLog(s, e);
    BroadcastKeepsSources(s, e, ToWire(e));
    var t := s.(wal := s.wal.(log := s.wal.log + [e]), sources := Broadcast(s.sources, ToWire(e)));
    NodeIgnoresSources(s.(wal := s.wal.(log := s.wal.log + [e])), t);
    OtherLogFields(t, s');
  }

  lemma LogBounds(w: Wal, lastBackup: nat)
    requires LogInv(w, lastBackup)
    ensures lastBackup <= |w.log| == |w.home|
  {
  }

  lemma NodeIgnoresSources(s: Net, s': Net)
    requires NodeOk(s) && s' == s.(sources := s'.sources, chain := s'.chain, accepted := s'.accepted)
    ensures NodeOk(s')
  {
  }

  lemma RotateKeepsInv(s: Net, deleted: seq<nat>)
    requires Inv(s) && Enabled(s, RotateNow(deleted))
    ensures Inv(Do(s, RotateNow(deleted)))
  {
    hide LogInv, SourcesOk, ChainOk, Progress, NodeOk, GateOk, Broadcast;
    var s' := Do(s, RotateNow(deleted));
    LogBounds(s.wal, s.lastBackup);
    RotationKeepsLog(s.wal, s.lastBackup, deleted);
    var e := Rotate(|s.wal.log| + 1, s.wal.generation + 1);
    NodeKeepsWithLog(s, e);
    BroadcastKeepsSources(s, e, ToWire(e));
    hide UnlinkAll, ReadSince, CanServeFrom;
    var t := s.(wal := s.wal.(log := s.wal.log + [e]), sources := Broadcast(s.sources, ToWire(e)));
    NodeIgnoresSources(s.(wal := s.wal.(log := s.wal.log + [e])), t);
    OtherLogFields(t, s');
  }

  lemma ClosedKeepsSource(x: Source, log: seq<Event>, clean: bool)
    requires SourceOk(x, log, clean)
    ensures SourceOk(x.(conn := x.conn.(closed := true)), log, clean)
  {
    assert MessagesOk(x.(conn := x.conn.(closed := true)), log, clean);
  }

  lemma CloseAllKeepsSources(s: Net)
    requires SourcesOk(s) && ChainOk(s) && Progress(s) && GateOk(s)
    ensures var s' := s.(sources := CloseAll(s.sources)); SourcesOk(s') && ChainOk(s') && Progress(s') && GateOk(s')
  {
    hide SourceOk, FromSource, LastOf;
    forall i | 0 <= i < |s.sources| {
      ClosedKeepsSource(s.sources[i], s.wal.log, s.sources[i].clean);
    }
  }

  lemma ClosedSourcesIgnoreLog(s: Net, e: Event)
    requires SourcesOk(s) && ChainOk(s) && Progress(s) && GateOk(s)
    requires forall i :: 0 <= i < |s.sources| ==> s.sources[i].conn.closed
    ensures var s' := s.(wal := s.wal.(log := s.wal.log + [e]));
      SourcesOk(s') && ChainOk(s') && Progress(s') && GateOk(s')
  {
    hide FromSource, LastOf, MessageOk, Next;
    forall i | 0 <= i < |s.sources| ensures SourceOk(s.sources[i], s.wal.log + [e], s.sources[i].clean) {
      MessagesGrow(s.sources[i], s.wal.log, s.sources[i].clean, e);
    }
  }

  lemma RestartKeepsInv(s: Net, lost: Lost)
    requires Inv(s) && Enabled(s, RestartCoordinator(lost))
    ensures Inv(Do(s, RestartCoordinator(lost)))
  {
    hide LogInv, SourcesOk, ChainOk, Progress, NodeOk, GateOk, ValidItem;
    var s' := Do(s, RestartCoordinator(lost));
    LogBounds(s.wal, s.lastBackup);
    CloseAllKeepsSources(s);
    var t := s.(sources := CloseAll(s.sources));
    NodeIgnoresSources(s, t);
    match lost
    case Nothing =>
      RestartKeepsLog(s.wal, s.lastBackup);
      OtherLogFields(t, s');
    case LostEntry(item) =>
      EntryKeepsLog(s.wal, s.lastBackup, item);
      RestartKeepsLog(WalSpec.AppendEntry(s.wal, item), s.lastBackup);
      RestartGrows(t, s', Entry(|s.wal.log| + 1, s.wal.generation, item));
    case LostMarker =>
      MarkerKeepsLog(s.wal, s.lastBackup);
      RestartKeepsLog(AppendRotate(s.wal, s.wal.generation + 1), s.lastBackup);
      RestartGrows(t, s', Rotate(|s.wal.log| + 1, s.wal.generation + 1));
  }

  /** After a restart exactly the cursors at or above the consistency point are served. */
  lemma RestartServesFromPoint(s: Net, lost: Lost, from: nat)
    requires Enabled(s, RestartCoordinator(lost))
    ensures CanServeFrom(Do(s, RestartCoordinator(lost)).wal, from) <==> s.lastBackup <= from
  {
  }

  lemma RestartGrows(t: Net, s': Net, e: Event)
    requires SourcesOk(t) && ChainOk(t) && Progress(t) && NodeOk(t) && GateOk(t)
    requires forall i :: 0 <= i < |t.sources| ==> t.sources[i].conn.closed
    requires s' == t.(wal := s'.wal) && s'.wal.log == t.wal.log + [e]
    ensures SourcesOk(s') && ChainOk(s') && Progress(s') && NodeOk(s') && GateOk(s')
  {
    hide SourcesOk, ChainOk, Progress, NodeOk, GateOk;
    NodeKeepsWithLog(t, e);
    ClosedSourcesIgnoreLog(t, e);
    OtherLogFields(t.(wal := t.wal.(log := t.wal.log + [e])), s');
  }

  // ---- Steps of streams and polls ----

  /** A new source has handed nothing to the chain. */
  lemma NewSource(s: Net, x: Source, accepted: set<nat>, excused: bool)
    requires SourcesOk(s) && ChainOk(s) && Progress(s) && NodeOk(s) && GateOk(s)
    requires SourceOk(x, s.wal.log, x.clean) && (x.clean || excused) && x.handed == 0
      && x.request <= s.engine.lastApplied
    requires s.accepted <= accepted && Accepted(x, accepted) && (s.excused ==> excused)
    ensures var s' := s.(sources := s.sources + [x], accepted := accepted, excused := excused);
      SourcesOk(s') && ChainOk(s') && Progress(s') && NodeOk(s') && GateOk(s')
  {
    hide ToWire;
    var s' := s.(sources := s.sources + [x], accepted := accepted, excused := excused);
    NoTraceInChain(s.chain, |s.sources|);
    assert x.conn.written[..0] == [];
    assert forall i :: 0 <= i < |s.sources| ==> s'.sources[i] == s.sources[i];
  }

  lemma {:induction false} NoTraceInChain(chain: seq<(nat, Wire)>, n: nat)
    requires forall j :: 0 <= j < |chain| ==> chain[j].0 < n
    ensures FromSource(chain, n) == []
    decreases |chain|
  {
    if chain != [] {
      NoTraceInChain(chain[1..], n);
    }
  }

  /** A stream just accepted: the drain first, then the marker keepalive. */
  lemma FreshStream(log: seq<Event>, request: nat)
    requires request <= |log|
    ensures var n := |log|;
      var conn := Connection(request, false, [Drain(request, []), Send(Keepalive(n))], []);
      SourceOk(Source(request, conn, 0, 0, n, n, true), log, true)
  {
    var tail := [Send(Keepalive(|log|))];
    assert tail[1..] == [];
    assert [Drain(request, []), Send(Keepalive(|log|))][1..] == tail;
    assert IsKeepalive([Drain(request, []), Send(Keepalive(|log|))][1]);
  }

  lemma RefusedSource(request: nat, log: seq<Event>)
    ensures SourceOk(Answer(request, [Resnapshot], |log|, false), log, false)
  {
  }

  lemma AskKeepsInv(s: Net, a: Action)
    requires Inv(s) && Enabled(s, a) && (a.Subscribe? || a.Poll?)
    ensures Inv(Do(s, a))
  {
    hide LogInv, SourcesOk, ChainOk, Progress, GateOk, SourceOk, PollPage, CanServeFrom, ToWire;
    LogBounds(s.wal, s.lastBackup);
    var n := |s.wal.log|;
    if !CanServeFrom(s.wal, a.request) {
      RefusedSource(a.request, s.wal.log);
      NewSource(s, Answer(a.request, [Resnapshot], n, false), s.accepted, true);
    } else if a.Subscribe? {
      FreshStream(s.wal.log, a.request);
      var conn := Connection(a.request, false, [Drain(a.request, []), Send(Keepalive(n))], []);
      NewSource(s, Source(a.request, conn, 0, 0, n, n, true), s.accepted + {n}, s.excused);
    } else {
      PollIsSource(s.wal, s.lastBackup, a.request, a.maxEvents);
      var x := Answer(a.request, Wired(PollPage(s.wal, a.request, a.maxEvents).0), n, true);
      NoKeepaliveInPoll(PollPage(s.wal, a.request, a.maxEvents).0);
      NewSource(s, x, s.accepted, s.excused);
    }
  }

  lemma NoKeepaliveInPoll(events: seq<Event>)
    ensures forall j :: 0 <= j < |events| ==> !Wired(events)[j].Keepalive?
  {
  }

  /** One source works on its queue: what it wrote before, and what was handed over, stays. */
  lemma SourceWorks(s: Net, i: nat, x: Source, excused: bool)
    requires SourcesOk(s) && ChainOk(s) && Progress(s) && NodeOk(s) && GateOk(s) && i < |s.sources|
    requires SourceOk(x, s.wal.log, x.clean) && (x.clean || excused) && (s.excused ==> excused)
    requires var y := s.sources[i];
      x.request == y.request && x.processed == y.processed && x.handed == y.handed && x.subscribedAt == y.subscribedAt
      && y.conn.written <= x.conn.written
      && ((x.conn.written == y.conn.written && (y.conn.closed ==> x.conn.closed)) || y.subscribedAt in s.accepted)
    ensures var s' := s.(sources := s.sources[i := x], excused := excused);
      SourcesOk(s') && ChainOk(s') && Progress(s') && NodeOk(s') && GateOk(s')
  {
    hide ToWire, FromSource, LastOf, MessageOk, Next, Pending, BatchOk;
    var s' := s.(sources := s.sources[i := x], excused := excused);
    var y := s.sources[i];
    assert x.conn.written[x.processed..x.handed] == y.conn.written[y.processed..y.handed] by {
      assert InChain(y, s.chain, i);
    }
    assert x.conn.written[..x.processed] == y.conn.written[..y.processed] by {
      assert InChain(y, s.chain, i);
    }
    assert Accepted(y, s.accepted) && Passed(y, s.engine) && InChain(y, s.chain, i);
    assert forall k :: 0 <= k < |s.sources| && k != i ==> s'.sources[k] == s.sources[k];
  }

  lemma WorkKeepsInv(s: Net, a: Action)
    requires Inv(s) && Enabled(s, a)
    requires a.DrainRead? || a.DrainWrite? || a.SendNext? || a.KeepaliveTick? || a.CloseSource?
    ensures Inv(Do(s, a))
  {
    hide LogInv, ChainOk, Progress, NodeOk, SourceOk, ReadSince, CanServeFrom, ToWire;
    LogIsOrdered(s.wal, s.lastBackup);
    var x, log, clean := s.sources[a.i], s.wal.log, s.sources[a.i].clean;
    assert SourceOk(x, log, clean) && Accepted(x, s.accepted);
    match a
    case DrainRead(i) =>
      DrainReadKeepsSource(s.wal, s.lastBackup, x, clean);
      SourceWorks(s, i, DrainStep(s.wal, x), s.excused || !DrainStep(s.wal, x).clean);
    case DrainWrite(i) =>
      DrainWriteKeepsSource(x, log, clean);
      SourceWorks(s, i, x.(conn := DrainEvent(x.conn)), s.excused);
    case SendNext(i) =>
      SendKeepsSource(x, log, clean);
      SourceWorks(s, i, Do(s, a).sources[i], s.excused);
    case KeepaliveTick(i) =>
      KeepaliveKeepsSource(x, log, clean);
      SourceWorks(s, i, Do(s, a).sources[i], s.excused);
    case CloseSource(i) =>
      ClosedKeepsSource(x, log, clean);
      SourceWorks(s, i, Do(s, a).sources[i], s.excused);
  }

  // ---- Steps of the node ----

  lemma ArriveKeepsChain(s: Net, i: nat)
    requires SourcesOk(s) && ChainOk(s) && Enabled(s, Arrive(i))
    ensures ChainOk(Do(s, Arrive(i)))
  {
    hide SourcesOk, FromSource;
    var x := s.sources[i];
    var d := (i, x.conn.written[x.handed]);
    forall k | 0 <= k < |s.sources| {
      FromSourceAppend(s.chain, d, k);
    }
    assert InChain(x, s.chain, i);
    assert x.conn.written[x.processed..x.handed + 1]
      == x.conn.written[x.processed..x.handed] + [x.conn.written[x.handed]];
  }

  lemma ArriveKeepsSources(s: Net, i: nat)
    requires SourcesOk(s) && Progress(s) && GateOk(s) && Enabled(s, Arrive(i))
    ensures var s' := Do(s, Arrive(i)); SourcesOk(s') && Progress(s') && GateOk(s')
  {
    hide LastOf, MessageOk, Next, Pending, BatchOk;
    var s', x := Do(s, Arrive(i)), s.sources[i];
    assert SourceOk(x, s.wal.log, x.clean) && Accepted(x, s.accepted) && Passed(x, s.engine);
    assert MessagesOk(s'.sources[i], s.wal.log, x.clean);
    assert forall k :: 0 <= k < |s.sources| && k != i ==> s'.sources[k] == s.sources[k];
  }

  lemma ArriveKeepsInv(s: Net, i: nat)
    requires Inv(s) && Enabled(s, Arrive(i))
    ensures Inv(Do(s, Arrive(i)))
  {
    hide LogInv, NodeOk, SourcesOk, ChainOk, Progress, GateOk;
    ArriveKeepsChain(s, i);
    ArriveKeepsSources(s, i);
    NodeIgnoresSources(s, Do(s, Arrive(i)));
  }

  /** Applying one message of a source moves a live engine past it. */
  lemma StepPasses(e: Engine, x: Source, o: Outcome, log: seq<Event>, clean: bool)
    requires SourceOk(x, log, clean) && Passed(x, e) && x.processed < |x.conn.written|
    ensures Passed(x.(processed := x.processed + 1), Step(e, x.conn.written[x.processed], o))
    ensures e.lastApplied <= Step(e, x.conn.written[x.processed], o).lastApplied
  {
    hide ToWire, Pending, BatchOk;
    var written, p := x.conn.written, x.processed;
    assert MessageOk(x.request, x.subscribedAt, written, log, p);
    assert written[..p + 1] == written[..p] + [written[p]];
    LastOfAppend(x.request, written[..p], written[p]);
  }

  lemma CanonicalMessage(x: Source, log: seq<Event>, clean: bool, j: nat)
    requires SourceOk(x, log, clean) && j < |x.conn.written|
    ensures Canonical(log, x.conn.written[j])
  {
    assert MessageOk(x.request, x.subscribedAt, x.conn.written, log, j);
  }

  /** While nothing excused it, no message a source can deliver makes the engine rebootstrap. */
  lemma CleanStepNeverFires(e: Engine, x: Source, o: Outcome, w: Wal, lastBackup: nat)
    requires LogInv(w, lastBackup) && SourceOk(x, w.log, true) && Passed(x, e) && x.processed < |x.conn.written|
    requires !e.fired && !e.stopped && e.lastApplied <= |w.log| && e.generation == Gen(w.log[..e.lastApplied])
    requires Healthy(x.conn.written[x.processed], o)
    ensures var e' := Step(e, x.conn.written[x.processed], o);
      !e'.fired && e'.lastApplied <= |w.log| && e'.generation == Gen(w.log[..e'.lastApplied])
  {
    hide LastOf, Pending, BatchOk;
    var written, p, log := x.conn.written, x.processed, w.log;
    assert MessageOk(x.request, x.subscribedAt, written, log, p) && Next(x.request, written, p);
    if CarriesLsn(written[p]) && written[p].lsn.value == e.lastApplied + 1 {
      var n := e.lastApplied;
      GenerationsOf(w, lastBackup, n);
    }
  }

  lemma GenerationsOf(w: Wal, lastBackup: nat, n: nat)
    requires LogInv(w, lastBackup) && n < |w.log|
    ensures w.log[n].generation == if w.log[n].Rotate? then Gen(w.log[..n]) + 1 else Gen(w.log[..n])
    ensures Gen(w.log[..n + 1]) == w.log[n].generation
    ensures !w.log[n].Rotate? ==> ApplyEntryAccepts(w.log[n].item)
  {
    assert w.log[..n + 1][..n] == w.log[..n];
  }

  lemma ChainHead(s: Net)
    requires ChainOk(s) && s.chain != [] && s.chain[0].0 < |s.sources|
    ensures var x := s.sources[s.chain[0].0];
      x.processed < x.handed <= |x.conn.written| && x.conn.written[x.processed] == s.chain[0].1
  {
    assert InChain(s.sources[s.chain[0].0], s.chain, s.chain[0].0);
  }

  lemma PopKeepsChain(s: Net, s': Net)
    requires ChainOk(s) && s.chain != [] && s.chain[0].0 < |s.sources|
    requires s'.chain == s.chain[1..]
    requires var i := s.chain[0].0; s'.sources == s.sources[i := s.sources[i].(processed := s.sources[i].processed + 1)]
    ensures ChainOk(s')
  {
    var i := s.chain[0].0;
    forall k | 0 <= k < |s'.sources| ensures InChain(s'.sources[k], s'.chain, k) {
      assert InChain(s.sources[k], s.chain, k);
      var x := s.sources[k];
      if k == i {
        assert x.conn.written[x.processed..x.handed][1..] == x.conn.written[x.processed + 1..x.handed];
        assert FromSource(s.chain, k)[1..] == FromSource(s'.chain, k);
      }
    }
  }

  lemma ApplyKeepsNode(s: Net, o: Outcome)
    requires Inv(s) && Enabled(s, ApplyNext(o))
    ensures NodeOk(Do(s, ApplyNext(o)))
  {
    hide LogInv, Pending, BatchOk, LastOf, MessageOk, Next, ToWire, Healthy, SourceOk, FromSource;
    var (i, ev) := s.chain[0];
    var x := s.sources[i];
    ChainHead(s);
    assert SourceOk(x, s.wal.log, x.clean) && Passed(x, s.engine) && (x.clean || s.excused);
    CanonicalMessage(x, s.wal.log, x.clean, x.processed);
    StepKeepsPrefix(s.engine, ev, o, s.wal.log);
    StepStores(s.engine, ev, o);
    if s.engine.stored.Some? {
      StepKeepsStoreExact(s.engine, ev, o);
    }
    if !s.excused && Healthy(ev, o) && !s.engine.stopped {
      CleanStepNeverFires(s.engine, x, o, s.wal, s.lastBackup);
    }
  }

  lemma ApplyKeepsSources(s: Net, o: Outcome)
    requires Inv(s) && Enabled(s, ApplyNext(o))
    ensures SourcesOk(Do(s, ApplyNext(o))) && Progress(Do(s, ApplyNext(o)))
  {
    hide LogInv, Pending, BatchOk, LastOf, MessageOk, Next, ToWire, Healthy, FromSource, Step;
    var s' := Do(s, ApplyNext(o));
    var (i, ev) := s.chain[0];
    var x := s.sources[i];
    ChainHead(s);
    assert SourceOk(x, s.wal.log, x.clean) && Passed(x, s.engine);
    StepPasses(s.engine, x, o, s.wal.log, x.clean);
    assert MessagesOk(s'.sources[i], s.wal.log, x.clean);
    assert forall k :: 0 <= k < |s.sources| && k != i ==> s'.sources[k] == s.sources[k];
    forall k | 0 <= k < |s.sources| ensures Passed(s'.sources[k], s'.engine) {
      assert Passed(s.sources[k], s.engine);
      StaysPassed(s.sources[k], s.engine, ev, o);
    }
  }

  lemma StaysPassed(x: Source, e: Engine, ev: Wire, o: Outcome)
    requires Passed(x, e)
    ensures Passed(x, Step(e, ev, o))
  {
    hide LastOf;
  }

  /** The gate opens on a keepalive only, and that keepalive names nothing the engine has not applied. */
  lemma ApplyKeepsGate(s: Net, o: Outcome)
    requires Inv(s) && Enabled(s, ApplyNext(o))
    ensures GateOk(Do(s, ApplyNext(o)))
  {
    hide LogInv, Pending, BatchOk, LastOf, Next, ToWire, Healthy, FromSource, KeepaliveDue, StoreOk, AppliedPrefix;
    var s' := Do(s, ApplyNext(o));
    var (i, ev) := s.chain[0];
    var x := s.sources[i];
    ChainHead(s);
    assert SourceOk(x, s.wal.log, x.clean) && Passed(x, s.engine) && Accepted(x, s.accepted);
    forall k | 0 <= k < |s.sources| ensures Accepted(s'.sources[k], s'.accepted) {
      assert Accepted(s.sources[k], s.accepted);
    }
    if s'.engine.gateOpened && !s.engine.gateOpened {
      assert MessageOk(x.request, x.subscribedAt, x.conn.written, s.wal.log, x.processed);
      assert x.subscribedAt in s.accepted && x.subscribedAt <= s'.engine.lastApplied;
    } else if s.engine.gateOpened {
      var a :| a in s.accepted && a <= s.engine.lastApplied;
      assert a <= s'.engine.lastApplied;
    }
  }

  lemma ApplyKeepsInv(s: Net, o: Outcome)
    requires Inv(s) && Enabled(s, ApplyNext(o))
    ensures Inv(Do(s, ApplyNext(o)))
  {
    ApplyKeepsNode(s, o);
    ApplyKeepsSources(s, o);
    ApplyKeepsGate(s, o);
    PopKeepsChain(s, Do(s, ApplyNext(o)));
    hide LogInv, SourcesOk, ChainOk, Progress, NodeOk, GateOk, Step, Healthy;
  }

  lemma BootstrapKeepsInv(s: Net, a: Action)
    requires Inv(s) && Enabled(s, a) && (a.TakeSnapshot? || a.BeginBootstrap? || a.Install?)
    ensures Inv(Do(s, a))
  {
    hide SourceOk, FromSource, LastOf, ToWire, Coordinator.LogShape, Coordinator.FilesKept;
    LogBounds(s.wal, s.lastBackup);
    if a.Install? {
      var point := s.snapshot.value.0;
      assert Wired(s.wal.log[point..point]) == [];
    } else if a.BeginBootstrap? {
      forall i | 0 <= i < |s.sources| ensures Passed(s.sources[i], Do(s, a).engine) {
        assert Passed(s.sources[i], s.engine);
      }
    }
  }

  lemma StepKeepsInv(s: Net, a: Action)
    requires Inv(s) && Enabled(s, a)
    ensures Inv(Do(s, a))
  {
    hide Inv, Enabled, Do;
    match a
    case Add(item, refused) => AddKeepsInv(s, item, refused);
    case RotateNow(deleted) => RotateKeepsInv(s, deleted);
    case RestartCoordinator(lost) => RestartKeepsInv(s, lost);
    case Subscribe(_) => AskKeepsInv(s, a);
    case Poll(_, _) => AskKeepsInv(s, a);
    case Arrive(i) => ArriveKeepsInv(s, i);
    case ApplyNext(o) => ApplyKeepsInv(s, o);
    case TakeSnapshot => BootstrapKeepsInv(s, a);
    case BeginBootstrap => BootstrapKeepsInv(s, a);
    case Install => BootstrapKeepsInv(s, a);
    case _ => WorkKeepsInv(s, a);
  }

  ghost predicate Runs(s: Net, run: seq<Action>)
    decreases |run|
  {
    run == [] || (Enabled(s, run[0]) && Runs(Do(s, run[0]), run[1..]))
  }

  ghost function Final(s: Net, run: seq<Action>): Net
    requires Runs(s, run)
    decreases |run|
  {
    if run == [] then s else Final(Do(s, run[0]), run[1..])
  }

  lemma {:induction false} RunKeepsInv(s: Net, run: seq<Action>)
    requires Inv(s) && Runs(s, run)
    ensures Inv(Final(s, run))
    decreases |run|
  {
    hide Inv, Enabled, Do;
    if run != [] {
      StepKeepsInv(s, run[0]);
      RunKeepsInv(Do(s, run[0]), run[1..]);
    }
  }

  /** A new node facing a coordinator in any state a log can be in: nothing installed, nothing served. */
  ghost predicate Initial(s: Net) {
    && LogInv(s.wal, s.lastBackup)
    && s.sources == [] && s.chain == [] && s.catchingUp && s.snapshot == None && s.accepted == {}
    && s.engine == Engine(0, 0, 0, true, false, false, None, [])
    && s.excused
  }

  lemma ReachableInv(s: Net, run: seq<Action>)
    requires Initial(s) && Runs(s, run)
    ensures Inv(Final(s, run))
  {
    hide Coordinator.LogShape, Coordinator.FilesKept;
    assert s.wal.log[0..0] == [];
    assert Inv(s);
    RunKeepsInv(s, run);
  }

  // ---- What every run guarantees ----

  /**
   * Serving gate: whenever the node answers checks, its revoker has seen every canonical event
   * after the installed snapshot up to the coordinator's lastLsn at some Subscribe accepted since.
   */
  lemma ServingIsCaughtUp(s: Net, run: seq<Action>)
    requires Initial(s) && Runs(s, run) && !Final(s, run).catchingUp
    ensures var t := Final(s, run);
      exists a :: a in t.accepted && a <= t.engine.lastApplied && AppliedPrefix(t.engine, t.wal.log)
  {
    ReachableInv(s, run);
  }

  /** Stream order: the LSNs a source writes strictly increase, each message is the log's event at its LSN. */
  lemma StreamLsnsIncrease(s: Net, run: seq<Action>, i: nat, j: nat, k: nat)
    requires Initial(s) && Runs(s, run) && i < |Final(s, run).sources|
    requires j < k < |Final(s, run).sources[i].conn.written|
    requires var w := Final(s, run).sources[i].conn.written; CarriesLsn(w[j]) && CarriesLsn(w[k])
    ensures var t := Final(s, run); var w := t.sources[i].conn.written;
      && w[j].lsn.value < w[k].lsn.value <= |t.wal.log|
      && w[k] == ToWire(t.wal.log[w[k].lsn.value - 1])
  {
    ReachableInv(s, run);
    var t := Final(s, run);
    var x := t.sources[i];
    assert SourceOk(x, t.wal.log, x.clean);
    assert MessageOk(x.request, x.subscribedAt, x.conn.written, t.wal.log, k);
    LastIsLater(x, t.wal.log, x.clean, j, k);
  }

  lemma {:induction false} LastIsLater(x: Source, log: seq<Event>, clean: bool, j: nat, k: nat)
    requires MessagesOk(x, log, clean) && j < k <= |x.conn.written| && CarriesLsn(x.conn.written[j])
    ensures x.conn.written[j].lsn.value <= LastOf(x.request, x.conn.written[..k])
    decreases k
  {
    var w := x.conn.written;
    assert w[..k][..k - 1] == w[..k - 1];
    if j < k - 1 {
      LastIsLater(x, log, clean, j, k - 1);
      assert MessageOk(x.request, x.subscribedAt, w, log, k - 1);
    }
  }

  /** A keepalive naming LSN c is written after everything the source will ever write up to c. */
  lemma KeepaliveComesAfter(s: Net, run: seq<Action>, i: nat, j: nat, k: nat)
    requires Initial(s) && Runs(s, run) && i < |Final(s, run).sources|
    requires j < k < |Final(s, run).sources[i].conn.written|
    requires var w := Final(s, run).sources[i].conn.written; w[j].Keepalive? && CarriesLsn(w[k])
    ensures var w := Final(s, run).sources[i].conn.written; w[j].coordinatorLastLsn < w[k].lsn.value
  {
    ReachableInv(s, run);
    var t := Final(s, run);
    var x := t.sources[i];
    assert SourceOk(x, t.wal.log, x.clean);
    assert MessageOk(x.request, x.subscribedAt, x.conn.written, t.wal.log, k);
    assert MessageOk(x.request, x.subscribedAt, x.conn.written, t.wal.log, j);
    LastNeverDrops(x, t.wal.log, x.clean, j, k);
  }

  lemma {:induction false} LastNeverDrops(x: Source, log: seq<Event>, clean: bool, j: nat, k: nat)
    requires MessagesOk(x, log, clean) && j <= k <= |x.conn.written|
    ensures LastOf(x.request, x.conn.written[..j]) <= LastOf(x.request, x.conn.written[..k])
    decreases k
  {
    var w := x.conn.written;
    if j < k {
      assert w[..k][..k - 1] == w[..k - 1];
      LastNeverDrops(x, log, clean, j, k - 1);
      assert MessageOk(x.request, x.subscribedAt, w, log, k - 1);
    }
  }

  /** While retention never passed its own drain's cursor, a source's LSNs are request + 1, request + 2, ... */
  lemma CleanStreamHasNoGap(s: Net, run: seq<Action>, i: nat, j: nat)
    requires Initial(s) && Runs(s, run) && i < |Final(s, run).sources| && Final(s, run).sources[i].clean
    requires j < |Final(s, run).sources[i].conn.written| && CarriesLsn(Final(s, run).sources[i].conn.written[j])
    ensures var x := Final(s, run).sources[i];
      x.conn.written[j].lsn.value == LastOf(x.request, x.conn.written[..j]) + 1
  {
    ReachableInv(s, run);
    var t := Final(s, run);
    assert SourceOk(t.sources[i], t.wal.log, true);
    assert Next(t.sources[i].request, t.sources[i].conn.written, j);
  }

  /** ... and a keepalive naming LSN c is written after each of request + 1, ..., c. */
  lemma KeepaliveIsComplete(s: Net, run: seq<Action>, i: nat, j: nat, lsn: nat) returns (k: nat)
    requires Initial(s) && Runs(s, run) && i < |Final(s, run).sources| && Final(s, run).sources[i].clean
    requires var x := Final(s, run).sources[i];
      j < |x.conn.written| && x.conn.written[j].Keepalive? && x.request < lsn <= x.conn.written[j].coordinatorLastLsn
    ensures var t := Final(s, run); var w := t.sources[i].conn.written;
      k < j && CarriesLsn(w[k]) && lsn <= |t.wal.log| && w[k] == ToWire(t.wal.log[lsn - 1])
  {
    ReachableInv(s, run);
    hide Runs, Final, Initial, LogInv, ChainOk, Progress, NodeOk, GateOk, QueueOk;
    var t := Final(s, run);
    var x := t.sources[i];
    assert SourceOk(x, t.wal.log, true);
    assert MessageOk(x.request, x.subscribedAt, x.conn.written, t.wal.log, j);
    k := FindLsn(x, t.wal.log, j, lsn);
  }

  lemma {:induction false} FindLsn(x: Source, log: seq<Event>, j: nat, lsn: nat) returns (k: nat)
    requires MessagesOk(x, log, true) && j <= |x.conn.written|
      && x.request < lsn <= LastOf(x.request, x.conn.written[..j])
    ensures k < j && CarriesLsn(x.conn.written[k]) && lsn <= |log| && x.conn.written[k] == ToWire(log[lsn - 1])
    decreases j
  {
    var w := x.conn.written;
    assert w[..j][..j - 1] == w[..j - 1];
    assert MessageOk(x.request, x.subscribedAt, w, log, j - 1) && Next(x.request, w, j - 1);
    if CarriesLsn(w[j - 1]) && w[j - 1].lsn.value == lsn {
      k := j - 1;
    } else {
      k := FindLsn(x, log, j - 1, lsn);
    }
  }

  /**
   * A stream whose queue has run empty has written a keepalive naming at least the coordinator's
   * lastLsn at the Subscribe, and, if clean, every event from its request to the end of the log.
   */
  lemma DrainedStreamIsComplete(s: Net, run: seq<Action>, i: nat)
    requires Initial(s) && Runs(s, run) && i < |Final(s, run).sources|
    requires var x := Final(s, run).sources[i]; !x.conn.closed && x.conn.queue == []
    ensures var t := Final(s, run); var x := t.sources[i];
      && (exists j :: 0 <= j < |x.conn.written| && x.conn.written[j].Keepalive?
            && x.subscribedAt <= x.conn.written[j].coordinatorLastLsn)
      && (x.clean ==> forall n :: x.request <= n < |t.wal.log| ==> ToWire(t.wal.log[n]) in x.conn.written)
  {
    ReachableInv(s, run);
    var t := Final(s, run);
    hide Runs, Final, Initial;
    StreamIsComplete(t, i);
  }

  lemma StreamIsComplete(t: Net, i: nat)
    requires Inv(t) && i < |t.sources| && !t.sources[i].conn.closed && t.sources[i].conn.queue == []
    ensures var x := t.sources[i];
      && (exists j :: 0 <= j < |x.conn.written| && x.conn.written[j].Keepalive?
            && x.subscribedAt <= x.conn.written[j].coordinatorLastLsn)
      && (x.clean ==> forall n :: x.request <= n < |t.wal.log| ==> ToWire(t.wal.log[n]) in x.conn.written)
  {
    hide LogInv, ChainOk, Progress, NodeOk, GateOk, LastOf, ToWire;
    var x, log := t.sources[i], t.wal.log;
    assert SourceOk(x, log, x.clean);
    var j :| 0 <= j < |x.conn.written| && x.conn.written[j].Keepalive?;
    assert MessageOk(x.request, x.subscribedAt, x.conn.written, log, j);
    assert x.conn.written[..|x.conn.written|] == x.conn.written;
    if x.clean {
      forall n | x.request <= n < |log| ensures ToWire(log[n]) in x.conn.written {
        var k := FindLsn(x, log, |x.conn.written|, n + 1);
      }
    }
  }

  /**
   * No spurious rebootstrap: the engine only fires after a refused request, a drain read below the
   * retention floor, a snapshot naming the wrong generation, or a disk or revoker failure. No
   * interleaving of streams, polls, late events and coordinator restarts makes it fire otherwise.
   */
  lemma NoSpuriousRebootstrap(s: Net, run: seq<Action>)
    requires Initial(s) && Runs(s, run)
    ensures Final(s, run).engine.fired ==> Final(s, run).excused
  {
    ReachableInv(s, run);
  }

  // ---- A snapshot taken after a crash between marker and meta file ----

  /** The gate is shut, and the engine is stuck below marker m, which every accepted Subscribe has seen. */
  ghost predicate Shut(s: Net, m: nat) {
    s.catchingUp && BehindMarker(s.engine, s.wal.log, m) && forall a <- s.accepted :: m <= a
  }

  lemma {:induction false} FirstMarker(log: seq<Event>, point: nat) returns (m: nat)
    requires point <= |log| && !NoRotate(log[point..])
    ensures point < m <= |log| && log[m - 1].Rotate? && NoRotate(log[point..m - 1])
    decreases |log| - point
  {
    if log[point].Rotate? {
      m := point + 1;
      assert log[point..point] == [];
    } else {
      assert log[point..] == [log[point]] + log[point + 1..];
      NoRotateCons(log[point], log[point + 1..]);
      m := FirstMarker(log, point + 1);
      assert log[point..m - 1] == [log[point]] + log[point + 1..m - 1];
      NoRotateCons(log[point], log[point + 1..m - 1]);
    }
  }

  /** Installing a snapshot whose consistency point has a marker above it, under today's generation. */
  lemma InstallShuts(s: Net) returns (m: nat)
    requires Inv(s) && Enabled(s, Install)
    requires var (point, generation) := s.snapshot.value;
      point <= |s.wal.log| && generation == s.wal.generation && !NoRotate(s.wal.log[point..])
    ensures Shut(Do(s, Install), m)
  {
    m := MarkerAbove(s.wal, s.lastBackup, s.snapshot.value.0);
    hide Inv, NoRotate;
  }

  /** A restart after a lost marker, then a snapshot: the marker lies above the snapshot's consistency point. */
  lemma LostMarkerFrame(s: Net)
    requires |s.wal.home| == |s.wal.log| && s.lastBackup <= |s.wal.log|
    ensures Enabled(s, RestartCoordinator(LostMarker))
    ensures var s1 := Do(s, RestartCoordinator(LostMarker));
      && |s1.wal.home| == |s1.wal.log| && s1.lastBackup <= |s1.wal.log| && !NoRotate(s1.wal.log[s1.lastBackup..])
  {
    var s1 := Do(s, RestartCoordinator(LostMarker));
    assert s1.wal.log == s.wal.log + [Rotate(|s.wal.log| + 1, s.wal.generation + 1)];
    MarkerIsThere(s.wal.log, s1.wal.log, s1.lastBackup);
  }

  lemma SnapshotFrame(s: Net)
    requires |s.wal.home| == |s.wal.log|
    ensures Enabled(s, TakeSnapshot) && Do(s, TakeSnapshot) == s.(snapshot := Some((s.lastBackup, s.wal.generation)))
  {
  }

  lemma SwapFrame(s: Net)
    requires |s.wal.home| == |s.wal.log| && s.snapshot.Some?
    ensures Enabled(s, BeginBootstrap)
    ensures Do(s, BeginBootstrap) == s.(catchingUp := true, engine := s.engine.(stopped := true))
    ensures Enabled(Do(s, BeginBootstrap), Install)
  {
  }

  /** After a crash between marker and meta file, a node that asks for a snapshot and installs it is shut out. */
  lemma LostMarkerShuts(s: Net) returns (t: Net, m: nat)
    requires Inv(s)
    ensures Runs(s, [RestartCoordinator(LostMarker), TakeSnapshot, BeginBootstrap, Install])
    ensures t == Final(s, [RestartCoordinator(LostMarker), TakeSnapshot, BeginBootstrap, Install])
    ensures Inv(t) && Shut(t, m)
  {
    hide Inv, NoRotate, Enabled, Do, Shut, Runs, Final;
    InvBounds(s);
    LostMarkerFrame(s);
    var s1 := Do(s, RestartCoordinator(LostMarker));
    SnapshotFrame(s1);
    var s2 := Do(s1, TakeSnapshot);
    SwapFrame(s2);
    var s3 := Do(s2, BeginBootstrap);
    t := Do(s3, Install);
    StepKeepsInv(s, RestartCoordinator(LostMarker));
    StepKeepsInv(s1, TakeSnapshot);
    StepKeepsInv(s2, BeginBootstrap);
    StepKeepsInv(s3, Install);
    m := InstallShuts(s3);
    FourSteps(s, s1, s2, s3, t, [RestartCoordinator(LostMarker), TakeSnapshot, BeginBootstrap, Install]);
  }

  lemma InvBounds(s: Net)
    requires Inv(s)
    ensures s.lastBackup <= |s.wal.log| == |s.wal.home|
  {
    LogBounds(s.wal, s.lastBackup);
  }

  lemma MarkerIsThere(log: seq<Event>, log': seq<Event>, point: nat)
    requires point <= |log| && |log'| == |log| + 1 && log'[|log|].Rotate?
    ensures !NoRotate(log'[point..])
  {
    assert log'[point..][|log| - point] == log'[|log|];
  }

  lemma FourSteps(s: Net, s1: Net, s2: Net, s3: Net, t: Net, run: seq<Action>)
    requires |run| == 4 && Enabled(s, run[0]) && s1 == Do(s, run[0]) && Enabled(s1, run[1]) && s2 == Do(s1, run[1])
    requires Enabled(s2, run[2]) && s3 == Do(s2, run[2]) && Enabled(s3, run[3]) && t == Do(s3, run[3])
    ensures Runs(s, run) && Final(s, run) == t
  {
    hide Enabled, Do;
    assert Runs(t, run[4..]) && Final(t, run[4..]) == t;
    assert Runs(s3, run[3..]) && Final(s3, run[3..]) == t by { assert run[3..][1..] == run[4..]; }
    assert Runs(s2, run[2..]) && Final(s2, run[2..]) == t by { assert run[2..][1..] == run[3..]; }
    assert Runs(s1, run[1..]) && Final(s1, run[1..]) == t;
  }

  lemma MarkerAbove(w: Wal, lastBackup: nat, point: nat) returns (m: nat)
    requires LogInv(w, lastBackup) && point <= |w.log| && !NoRotate(w.log[point..])
    ensures point < m <= |w.log| && w.log[m - 1].Rotate? && NoRotate(w.log[point..m - 1])
    ensures w.log[m - 1].generation <= w.generation
  {
    hide LogInv, Gen, Generations, NoRotate;
    m := FirstMarker(w.log, point);
    MarkerGeneration(w, lastBackup, m - 1);
  }

  /** A marker names a generation no later than the running one. */
  lemma MarkerGeneration(w: Wal, lastBackup: nat, n: nat)
    requires LogInv(w, lastBackup) && n < |w.log| && w.log[n].Rotate?
    ensures w.log[n].generation <= w.generation
  {
    MarkerIsPast(w.log, n);
  }

  lemma StillBehind(e: Engine, log: seq<Event>, log': seq<Event>, m: nat)
    requires BehindMarker(e, log, m) && log <= log'
    ensures BehindMarker(e, log', m)
  {
    assert log'[e.lastApplied..m - 1] == log[e.lastApplied..m - 1];
  }

  lemma LogOnlyGrows(s: Net, a: Action)
    requires Enabled(s, a)
    ensures s.wal.log <= Do(s, a).wal.log
  {
    hide ReadSince, CanServeFrom, ValidItem, Step, Broadcast;
  }

  lemma ChainHeadIsCanonical(s: Net)
    requires Inv(s) && s.chain != [] && s.chain[0].0 < |s.sources|
    ensures Canonical(s.wal.log, s.chain[0].1)
  {
    hide LogInv, Progress, NodeOk, GateOk, SourceOk, FromSource, Canonical;
    var x := s.sources[s.chain[0].0];
    ChainHead(s);
    CanonicalMessage(x, s.wal.log, x.clean, x.processed);
  }

  lemma ApplyStaysShut(s: Net, o: Outcome, m: nat)
    requires Inv(s) && Enabled(s, ApplyNext(o)) && Shut(s, m)
    ensures Shut(Do(s, ApplyNext(o)), m)
  {
    var s' := Do(s, ApplyNext(o));
    ApplyOnlyNode(s, o);
    hide Inv, Step, Do, Enabled, BehindMarker, Canonical;
    StepKeepsInv(s, ApplyNext(o));
    ChainHeadIsCanonical(s);
    StepStaysBehind(s.engine, s.chain[0].1, o, s.wal.log, m);
    BehindIsBelow(s'.engine, s.wal.log, m);
    if !s'.catchingUp {
      OpenMeansPast(s');
    }
  }

  lemma ApplyOnlyNode(s: Net, o: Outcome)
    requires Enabled(s, ApplyNext(o))
    ensures s.chain != [] && s.chain[0].0 < |s.sources|
    ensures var s' := Do(s, ApplyNext(o));
      s'.engine == Step(s.engine, s.chain[0].1, o) && s'.wal == s.wal && s'.accepted == s.accepted
  {
  }

  lemma OpenMeansPast(s: Net)
    requires Inv(s) && !s.catchingUp
    ensures exists a :: a in s.accepted && a <= s.engine.lastApplied
  {
    hide LogInv, SourcesOk, ChainOk, Progress, NodeOk;
  }

  lemma StepStaysShut(s: Net, a: Action, m: nat)
    requires Inv(s) && Enabled(s, a) && !a.Install? && Shut(s, m)
    ensures Shut(Do(s, a), m)
  {
    if a.ApplyNext? {
      ApplyStaysShut(s, a.o, m);
    } else {
      LogOnlyGrows(s, a);
      AcceptedIsAhead(s, a);
      hide Inv, Enabled, Do, BehindMarker;
      BehindIsBelow(s.engine, s.wal.log, m);
      StillBehind(s.engine, s.wal.log, Do(s, a).wal.log, m);
      BehindWhenStopped(s.engine, Do(s, a).engine, Do(s, a).wal.log, m);
    }
  }

  lemma AcceptedIsAhead(s: Net, a: Action)
    requires Enabled(s, a) && !a.Install? && !a.ApplyNext?
    ensures var s' := Do(s, a);
      (s.catchingUp ==> s'.catchingUp) && forall c <- s'.accepted :: c in s.accepted || c == |s.wal.log|
    ensures Do(s, a).engine.(stopped := s.engine.stopped) == s.engine
  {
    hide ReadSince, CanServeFrom, ValidItem, Step, Broadcast;
  }

  lemma BehindWhenStopped(e: Engine, e': Engine, log: seq<Event>, m: nat)
    requires BehindMarker(e, log, m) && e'.(stopped := e.stopped) == e
    ensures BehindMarker(e', log, m)
  {
    assert e'.lastApplied == e'.(stopped := e.stopped).lastApplied;
    assert e'.generation == e'.(stopped := e.stopped).generation;
  }

  lemma BehindIsBelow(e: Engine, log: seq<Event>, m: nat)
    requires BehindMarker(e, log, m)
    ensures e.lastApplied < m <= |log|
  {
  }

  /** Until the node installs another snapshot, it never answers a check. */
  lemma {:induction false} WrongGenerationNeverServes(s: Net, run: seq<Action>, m: nat)
    requires Inv(s) && Shut(s, m) && Runs(s, run) && forall a <- run :: !a.Install?
    ensures Final(s, run).catchingUp
    decreases |run|
  {
    hide Inv, Enabled, Do, BehindMarker;
    if run != [] {
      assert run[0] in run;
      StepKeepsInv(s, run[0]);
      StepStaysShut(s, run[0], m);
      WrongGenerationNeverServes(Do(s, run[0]), run[1..], m);
    }
  }
}
