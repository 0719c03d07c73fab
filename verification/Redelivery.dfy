// A node killed at any file operation, resumed from its own disk and sent the same events
// again: does it reach the filters of a node that was never killed?
module Redelivery {
  import opened Texts
  import opened WalSpec
  import opened Filters
  import opened CoreDisk

  // Filters, core's files, and the LSN in the state file (which is the engine's when it resumes).
  datatype Node = Node(pair: Pair, disk: CoreDisk, lsn: nat)

  // kill = Some(k): the process dies after k file operations of core, at the latest after all of
  // them but before the state file is written.
  datatype Life = Deliver(lsn: nat, kill: Option<nat>) | Backup(kill: Option<nat>)

  /** What the engine asks of core: tombstones arrive as plain entries. */
  function CoreOp(e: Event): Op {
    match e
    case Entry(_, _, item) => Insert(item)
    case Tombstone(_, _, item) => Insert(item)
    case Rotate(_, _) => Rotation
  }

  /** init(): a node resumes from its disk when either blob exists, else it asks for a snapshot. */
  function Resume(hash: Hash, d: CoreDisk, lsn: nat): Option<Node> {
    if d.current.Some? || d.previous.Some? then Some(Node(Restore(hash, d), d, lsn)) else None
  }

  function Perform(hash: Hash, node: Node, op: Op, kill: Option<nat>, lsn: nat): Option<Node> {
    var total := |Images(node.pair, node.disk, op)|;
    if kill.None? then Some(Node(After(hash, node.pair, op), ImageAt(node.pair, node.disk, op, total), lsn))
    else Resume(hash, ImageAt(node.pair, node.disk, op, if kill.value < total then kill.value else total), node.lsn)
  }

  /** One delivery or periodic backup; None: the node discards its state and asks for a snapshot. */
  function Next(hash: Hash, log: seq<Event>, node: Node, life: Life): Option<Node> {
    match life
    case Backup(kill) => Perform(hash, node, PeriodicBackup, kill, node.lsn)
    case Deliver(lsn, kill) =>
      if lsn <= node.lsn then Some(node)
      else if lsn != node.lsn + 1 || lsn > |log| then None
      else Perform(hash, node, CoreOp(log[lsn - 1]), kill, lsn)
  }

  function Live(hash: Hash, log: seq<Event>, node: Node, history: seq<Life>): Option<Node>
    decreases |history|
  {
    if history == [] then Some(node)
    else
      var next := Next(hash, log, node, history[0]);
      if next.None? then None else Live(hash, log, next.value, history[1..])
  }

  /** The filters of a node that started at `base` and was never killed, after event n. */
  function Unkilled(hash: Hash, start: Pair, log: seq<Event>, base: nat, n: nat): Pair
    requires base <= n <= |log|
  {
    Replicated(hash, start, log[base..n])
  }

  /** A rotation of a non-empty filter dies after the promotion of its blob, its LSN not yet stored. */
  predicate TearsRotation(log: seq<Event>, node: Node, life: Life) {
    && life.Deliver? && life.lsn == node.lsn + 1 <= |log| && log[node.lsn].Rotate?
    && life.kill.Some? && life.kill.value >= 3
    && node.pair.current != {}
  }

  predicate Torn(hash: Hash, log: seq<Event>, node: Node, history: seq<Life>)
    decreases |history|
  {
    history != [] &&
    (TearsRotation(log, node, history[0]) ||
     var next := Next(hash, log, node, history[0]);
     next.Some? && Torn(hash, log, next.value, history[1..]))
  }

  /** Where an unkilled node is, or one event further with that event harmless to apply again. */
  predicate OnTrack(hash: Hash, start: Pair, log: seq<Event>, base: nat, node: Node) {
    && base <= node.lsn <= |log|
    && Restore(hash, node.disk) == node.pair
    && (|| node.pair == Unkilled(hash, start, log, base, node.lsn)
        || (&& node.lsn < |log|
            && node.pair == Unkilled(hash, start, log, base, node.lsn + 1)
            && NodeStep(hash, node.pair, log[node.lsn]) == node.pair))
  }

  lemma UnkilledStep(hash: Hash, start: Pair, log: seq<Event>, base: nat, n: nat)
    requires base <= n < |log|
    ensures Unkilled(hash, start, log, base, n + 1) == NodeStep(hash, Unkilled(hash, start, log, base, n), log[n])
  {
    assert log[base..n + 1] == log[base..n] + [log[n]];
    ReplicatedAppend(hash, start, log[base..n], log[n]);
  }

  lemma CoreDoesTheEvent(hash: Hash, p: Pair, e: Event)
    ensures After(hash, p, CoreOp(e)) == NodeStep(hash, p, e)
  {
  }

  lemma DeliveryKeepsTrack(hash: Hash, start: Pair, log: seq<Event>, base: nat, node: Node, kill: Option<nat>)
    requires OnTrack(hash, start, log, base, node) && node.lsn < |log|
    requires !TearsRotation(log, node, Deliver(node.lsn + 1, kill))
    ensures var next := Next(hash, log, node, Deliver(node.lsn + 1, kill));
      && (next.Some? ==> OnTrack(hash, start, log, base, next.value))
      && (kill.None? ==> next.Some? && next.value.lsn == node.lsn + 1)
      && (kill.None? ==> next.value.pair == Unkilled(hash, start, log, base, node.lsn + 1))
  {
    hide Unkilled;
    var e := log[node.lsn];
    var op := CoreOp(e);
    var total := |Images(node.pair, node.disk, op)|;
    UnkilledStep(hash, start, log, base, node.lsn);
    CoreDoesTheEvent(hash, node.pair, e);
    CrashIsAtomic(hash, node.pair, node.disk, op, total);
    if kill.Some? {
      CrashIsAtomic(hash, node.pair, node.disk, op, if kill.value < total then kill.value else total);
    }
  }

  lemma BackupKeepsTrack(hash: Hash, start: Pair, log: seq<Event>, base: nat, node: Node, kill: Option<nat>)
    requires OnTrack(hash, start, log, base, node)
    ensures var next := Next(hash, log, node, Backup(kill));
      next.Some? ==> OnTrack(hash, start, log, base, next.value)
  {
    var total := |Images(node.pair, node.disk, PeriodicBackup)|;
    CrashIsAtomic(hash, node.pair, node.disk, PeriodicBackup, total);
    if kill.Some? {
      CrashIsAtomic(hash, node.pair, node.disk, PeriodicBackup, if kill.value < total then kill.value else total);
    }
  }

  /**
   * Over any history of deliveries, repeats, backups and kills in which no rotation is torn, a
   * node still living on its own disk is where an unkilled node is at its stored LSN, or one
   * event ahead: the state file never claims more than the filters hold.
   */
  lemma {:induction false} KillsAreHarmless(hash: Hash, start: Pair, log: seq<Event>, base: nat, node: Node,
      history: seq<Life>)
    requires OnTrack(hash, start, log, base, node) && !Torn(hash, log, node, history)
    ensures var end := Live(hash, log, node, history);
      end.Some? ==> OnTrack(hash, start, log, base, end.value) && node.lsn <= end.value.lsn
    decreases |history|
  {
    hide OnTrack;
    if history != [] {
      var life := history[0];
      var next := Next(hash, log, node, life);
      if next.Some? {
        match life {
          case Backup(kill) => BackupKeepsTrack(hash, start, log, base, node, kill);
          case Deliver(lsn, kill) =>
            if lsn > node.lsn {
              DeliveryKeepsTrack(hash, start, log, base, node, kill);
            }
        }
        KillsAreHarmless(hash, start, log, base, next.value, history[1..]);
      }
    }
  }

  /** After redelivery of the next event the node has the filters of one never killed. */
  lemma RedeliveryReaches(hash: Hash, log: seq<Event>, base: nat, disk: CoreDisk, history: seq<Life>)
    requires base <= |log|
    requires !Torn(hash, log, Node(Restore(hash, disk), disk, base), history)
    ensures var start := Restore(hash, disk);
      var end := Live(hash, log, Node(start, disk, base), history);
      end.Some? && end.value.lsn < |log| ==>
        var next := Next(hash, log, end.value, Deliver(end.value.lsn + 1, None));
        && next.Some? && base < next.value.lsn <= |log|
        && next.value.pair == Unkilled(hash, start, log, base, next.value.lsn)
        && Restore(hash, next.value.disk) == next.value.pair
  {
    var start := Restore(hash, disk);
    var node := Node(start, disk, base);
    assert log[base..base] == [];
    KillsAreHarmless(hash, start, log, base, node, history);
    var end := Live(hash, log, node, history);
    if end.Some? && end.value.lsn < |log| {
      hide Torn, Live, Unkilled;
      DeliveryKeepsTrack(hash, start, log, base, end.value, None);
    }
  }

  /**
   * Rotations are not idempotent: killed after the promotion and before the state write, then
   * resumed and sent the rotation again, a node matches an unkilled one exactly when the filter
   * being rotated was empty.
   */
  lemma TornRotation(hash: Hash, log: seq<Event>, node: Node)
    requires Restore(hash, node.disk) == node.pair && node.lsn < |log| && log[node.lsn].Rotate?
    ensures var end := Live(hash, log, node, [Deliver(node.lsn + 1, Some(3)), Deliver(node.lsn + 1, None)]);
      && end.Some? && end.value.lsn == node.lsn + 1
      && (end.value.pair == NodeStep(hash, node.pair, log[node.lsn]) <==> node.pair.current == {})
  {
    var kill, again := Deliver(node.lsn + 1, Some(3)), Deliver(node.lsn + 1, None);
    CrashIsAtomic(hash, node.pair, node.disk, Rotation, 3);
    var resumed := Next(hash, log, node, kill);
    assert resumed.Some? && resumed.value.pair == Shift(node.pair) && resumed.value.lsn == node.lsn;
    var end := Next(hash, log, resumed.value, again);
    assert end.Some? && end.value.pair == Shift(Shift(node.pair));
    assert [kill, again][1..] == [again];
    assert Live(hash, log, end.value, []) == end;
    assert Live(hash, log, resumed.value, [again]) == end by {
      assert [again][1..] == [];
    }
  }
}
