// The coordinator as the program has it: an object over its canonical log, its meta file and
// core's filter manager. Every method is a run of the state machine in Coordinator, so what is
// proved there of every run holds of every sequence of these calls.
module CoordinatorProcess {
  import opened Texts
  import opened WalSpec
  import opened Filters
  import opened CoreDisk
  import FilterManager
  import CanonicalWal
  import opened Machine = Coordinator
  import opened Convergence

  datatype ItemError = NotAString | TooLong | BadCharacter

  /** The item check of the coordinator, in its order. */
  function ItemValidationError(item: Text): (e: Option<ItemError>)
    ensures e == None <==> ValidItem(item)
    ensures e == Some(NotAString) <==> Blank(item)
    ensures e == Some(TooLong) <==> !Blank(item) && |item| > 4096
    ensures e == Some(BadCharacter) <==> !Blank(item) && |item| <= 4096 && (13 in item || 10 in item || 0 in item)
  {
    if Blank(item) then Some(NotAString)
    else if |item| > MAX_ITEM_LENGTH then Some(TooLong)
    else if CARRIAGE_RETURN in item || NEWLINE in item || NUL in item then Some(BadCharacter)
    else None
  }

  datatype AddResult = ShuttingDown | Invalid(error: ItemError) | Added(success: bool, lsn: nat)

  // What the listener (the server's broadcast) is told.
  datatype Live = LiveEntry(lsn: nat, generation: nat, item: Text) | LiveRotate(lsn: nat, generation: nat)

  datatype Snapshot = Snapshot(currentBlob: Option<Bits>, previousBlob: Option<Bits>, generation: nat,
      lastBackupLsn: nat)

  // ---- Runs ----

  ghost predicate Did(hash: Hash, s: State, run: seq<Action>, s': State) {
    Runs(hash, s, run) && Final(hash, s, run) == s'
  }

  lemma DidNothing(hash: Hash, s: State)
    ensures Did(hash, s, [], s)
  {
  }

  lemma DidMore(hash: Hash, s: State, run: seq<Action>, s': State, a: Action)
    requires Did(hash, s, run, s') && Enabled(s', a)
    ensures Did(hash, s, run + [a], Do(hash, s', a))
  {
    hide Enabled, Do;
    RunAppend(hash, s, run, a);
  }

  /** Calls one after the other are one run. */
  lemma {:induction false} DidCompose(hash: Hash, s: State, first: seq<Action>, s': State, second: seq<Action>,
      s'': State)
    requires Did(hash, s, first, s') && Did(hash, s', second, s'')
    ensures Did(hash, s, first + second, s'')
    decreases |second|
  {
    hide Enabled, Do;
    if second == [] {
      assert first + second == first;
    } else {
      DidMore(hash, s, first, s', second[0]);
      DidCompose(hash, s, first + [second[0]], Do(hash, s', second[0]), second[1..], s'');
      assert first + [second[0]] + second[1..] == first + second;
    }
  }

  lemma Did1(hash: Hash, s: State, a: Action)
    requires Inv(s) && Enabled(s, a)
    ensures Did(hash, s, [a], Do(hash, s, a)) && Inv(Do(hash, s, a))
  {
    StepKeepsInv(hash, s, a);
    hide Inv, Enabled, Do;
    DidNothing(hash, s);
    DidMore(hash, s, [], s, a);
    assert [] + [a] == [a];
  }

  lemma DidAnother(hash: Hash, s: State, run: seq<Action>, s': State, a: Action)
    requires Inv(s') && Did(hash, s, run, s') && Enabled(s', a)
    ensures Did(hash, s, run + [a], Do(hash, s', a)) && Inv(Do(hash, s', a))
  {
    StepKeepsInv(hash, s', a);
    DidMore(hash, s, run, s', a);
  }

  // ---- add() ----

  function AddActions(item: Text, success: bool): seq<Action> {
    [Action.AppendEntry(item), if success then ApplyLocally else RefuseLocally]
  }

  function AfterAdd(hash: Hash, s: State, item: Text, success: bool): State {
    var w := WalSpec.AppendEntry(s.wal, item);
    var s' := s.(wal := if success then w else AppendTombstone(w), nextLsn := s.nextLsn + 1);
    if success then s'.(core := s.core.(temp := s.core.temp + [item]), pair := AddItem(hash, s.pair, item)) else s'
  }

  lemma AddSteps(hash: Hash, s: State, item: Text, success: bool)
    requires Inv(s) && s.phase.Idle? && ValidItem(item)
    ensures Enabled(s, Action.AppendEntry(item))
    ensures var s1 := Do(hash, s, Action.AppendEntry(item));
      var second := if success then ApplyLocally else RefuseLocally;
      Enabled(s1, second) && Do(hash, s1, second) == AfterAdd(hash, s, item, success)
  {
    hide LogShape, FilesKept, MetaBehind, ValidItem;
  }

  lemma AddDid(hash: Hash, s: State, item: Text, success: bool)
    requires Inv(s) && s.phase.Idle? && ValidItem(item)
    ensures Did(hash, s, AddActions(item, success), AfterAdd(hash, s, item, success))
    ensures Inv(AfterAdd(hash, s, item, success))
  {
    hide Inv, Did, Do, Enabled, AfterAdd, ValidItem;
    AddSteps(hash, s, item, success);
    var first, second := Action.AppendEntry(item), if success then ApplyLocally else RefuseLocally;
    Did1(hash, s, first);
    DidAnother(hash, s, [first], Do(hash, s, first), second);
    assert [first] + [second] == [first, second];
  }

  // ---- A periodic backup ----

  lemma BackupDid(hash: Hash, s: State)
    requires Inv(s) && s.phase.Idle?
    ensures var s' := s.(core := s.core.(current := Some(s.pair.current), temp := []), blobAt := |s.wal.log|);
      Did(hash, s, [WriteBlob, ClearTemp], s') && Inv(s')
  {
    Did1(hash, s, WriteBlob);
    var s1 := Do(hash, s, WriteBlob);
    DidAnother(hash, s, [WriteBlob], s1, ClearTemp);
    assert [WriteBlob] + [ClearTemp] == [WriteBlob, ClearTemp];
  }

  // ---- A rotation ----

  function CoreRotated(s: State): State {
    s.(core := CoreDisk(None, Some(s.pair.current), []), pair := Shift(s.pair), phase := Promoted,
        blobAt := |s.wal.log|)
  }

  const CORE_ROTATION: seq<Action> := [RotateWriteBlob, RotateClearTemp, Promote]

  lemma CoreRotationDid(hash: Hash, s: State)
    requires Inv(s) && s.phase.Idle?
    ensures Did(hash, s, CORE_ROTATION, CoreRotated(s)) && Inv(CoreRotated(s))
  {
    hide Did, LogShape, FilesKept, MetaBehind, Volatile;
    var s1 := s.(core := s.core.(current := Some(s.pair.current)), phase := RotationBlobWritten, blobAt := |s.wal.log|);
    Did1(hash, s, RotateWriteBlob);
    assert Do(hash, s, RotateWriteBlob) == s1;
    var s2 := s1.(core := s1.core.(temp := []), phase := RotationCleared);
    DidAnother(hash, s, [RotateWriteBlob], s1, RotateClearTemp);
    assert Do(hash, s1, RotateClearTemp) == s2;
    assert [RotateWriteBlob] + [RotateClearTemp] == [RotateWriteBlob, RotateClearTemp];
    DidAnother(hash, s, [RotateWriteBlob, RotateClearTemp], s2, Promote);
    assert [RotateWriteBlob, RotateClearTemp] + [Promote] == CORE_ROTATION;
    assert Do(hash, s2, Promote) == CoreRotated(s);
  }

  function Checkpointed(s: State): State
    requires |s.wal.home| == |s.wal.log|
  {
    var g, lsn := s.metaState.generation + 1, |s.wal.log| + 1;
    var m := Meta(g, lsn, lsn);
    s.(wal := AppendRotate(s.wal, g), nextLsn := lsn + 1, meta := m, metaState := m, phase := Retaining, blobAt := lsn)
  }

  lemma CheckpointSteps(hash: Hash, s: State)
    requires Inv(s) && s.phase.Promoted?
    ensures Enabled(s, AppendMarker)
    ensures var s1 := Do(hash, s, AppendMarker); Enabled(s1, WriteMeta) && Do(hash, s1, WriteMeta) == Checkpointed(s)
  {
    hide LogShape, FilesKept, MetaBehind;
  }

  lemma MarkerDid(hash: Hash, s: State, run: seq<Action>, s': State)
    requires Inv(s') && s'.phase.Promoted? && Did(hash, s, run, s')
    ensures Did(hash, s, run + [AppendMarker, WriteMeta], Checkpointed(s')) && Inv(Checkpointed(s'))
  {
    hide Inv, Did, Do, Enabled, Checkpointed;
    InvHasHomes(s');
    CheckpointSteps(hash, s');
    DidAnother(hash, s, run, s', AppendMarker);
    var s1 := Do(hash, s', AppendMarker);
    DidAnother(hash, s, run + [AppendMarker], s1, WriteMeta);
    TwoMore(run, AppendMarker, WriteMeta);
  }

  lemma TwoMore(run: seq<Action>, first: Action, second: Action)
    ensures run + [first] + [second] == run + [first, second]
  {
  }

  function Unlinks(deleted: seq<nat>): seq<Action> {
    seq(|deleted|, i requires 0 <= i < |deleted| => UnlinkFile(deleted[i]))
  }

  ghost predicate Retirable(s: State, deleted: seq<nat>) {
    && s.phase.Retaining? && |s.wal.home| == |s.wal.log| && CanonicalWal.Distinct(deleted)
    && forall g <- deleted :: Deletable(s.wal, Before(s.metaState.generation), s.metaState.lastBackupLsn, g)
  }

  lemma {:induction false} RetentionDid(hash: Hash, s: State, run: seq<Action>, s': State, deleted: seq<nat>)
    requires Inv(s') && Retirable(s', deleted) && Did(hash, s, run, s')
    ensures Did(hash, s, run + Unlinks(deleted), s'.(wal := UnlinkAll(s'.wal, deleted)))
    ensures Inv(s'.(wal := UnlinkAll(s'.wal, deleted)))
  {
    hide Inv, Did, Do, Enabled, Retirable;
    if deleted == [] {
      assert run + Unlinks(deleted) == run;
    } else {
      var front, g := deleted[..|deleted| - 1], deleted[|deleted| - 1];
      OneUnlinkMore(hash, s', deleted);
      RetentionDid(hash, s, run, s', front);
      DidAnother(hash, s, run + Unlinks(front), s'.(wal := UnlinkAll(s'.wal, front)), UnlinkFile(g));
      assert run + Unlinks(front) + [UnlinkFile(g)] == run + Unlinks(deleted);
    }
  }

  lemma OneUnlinkMore(hash: Hash, s: State, deleted: seq<nat>)
    requires Retirable(s, deleted) && deleted != []
    ensures var front, g := deleted[..|deleted| - 1], deleted[|deleted| - 1];
      var s1 := s.(wal := UnlinkAll(s.wal, front));
      && Retirable(s, front) && Enabled(s1, UnlinkFile(g))
      && Do(hash, s1, UnlinkFile(g)) == s.(wal := UnlinkAll(s.wal, deleted))
  {
    var front, g := deleted[..|deleted| - 1], deleted[|deleted| - 1];
    UnlinkAllFiles(s.wal, front);
    assert g in deleted && g !in front;
  }

  /** Everything the rotation hook does after the core rotation. */
  function HookActions(deleted: seq<nat>): seq<Action> {
    [AppendMarker, WriteMeta] + Unlinks(deleted) + [FinishRotation]
  }

  function AfterHook(s: State, deleted: seq<nat>): State
    requires |s.wal.home| == |s.wal.log|
  {
    var s1 := Checkpointed(s);
    s1.(wal := UnlinkAll(s1.wal, deleted), phase := Idle)
  }

  lemma HookDid(hash: Hash, s: State, run: seq<Action>, s': State, deleted: seq<nat>)
    requires Inv(s') && s'.phase.Promoted? && Did(hash, s, run, s') && Retirable(Checkpointed(s'), deleted)
    ensures Did(hash, s, run + HookActions(deleted), AfterHook(s', deleted)) && Inv(AfterHook(s', deleted))
  {
    InvHasHomes(s');
    hide Inv, Did, Checkpointed, UnlinkAll, Enabled, Do, Unlinks, HookActions;
    MarkerDid(hash, s, run, s');
    var s1 := Checkpointed(s');
    RetentionDid(hash, s, run + [AppendMarker, WriteMeta], s1, deleted);
    var s2 := s1.(wal := UnlinkAll(s1.wal, deleted));
    var run2 := run + [AppendMarker, WriteMeta] + Unlinks(deleted);
    FinishDid(hash, s, run2, s2);
    HookActionsInOrder(run, deleted);
  }

  lemma HookActionsInOrder(run: seq<Action>, deleted: seq<nat>)
    ensures run + [AppendMarker, WriteMeta] + Unlinks(deleted) + [FinishRotation] == run + HookActions(deleted)
  {
    hide Unlinks;
  }

  lemma FinishDid(hash: Hash, s: State, run: seq<Action>, s': State)
    requires Inv(s') && s'.phase.Retaining? && Did(hash, s, run, s')
    ensures Did(hash, s, run + [FinishRotation], s'.(phase := Idle)) && Inv(s'.(phase := Idle))
  {
    hide Did;
    InvHasHomes(s');
    hide Inv;
    DidAnother(hash, s, run, s', FinishRotation);
  }

  /** A whole rotation of core and log is one run, whichever unlinks fail. */
  lemma RotationDid(hash: Hash, s: State, deleted: seq<nat>)
    requires Inv(s) && s.phase.Idle? && Retirable(Checkpointed(CoreRotated(s)), deleted)
    ensures Did(hash, s, CORE_ROTATION + HookActions(deleted), AfterHook(CoreRotated(s), deleted))
  {
    CoreRotationDid(hash, s);
    hide Inv, Did, CoreRotated, Checkpointed, Retirable, HookActions;
    CorePromotes(s);
    HookDid(hash, s, CORE_ROTATION, CoreRotated(s), deleted);
  }

  lemma CorePromotes(s: State)
    ensures CoreRotated(s).phase.Promoted? && CoreRotated(s).wal == s.wal
  {
  }

  /** Over that run the consistency point a snapshot was read with stays servable unless a marker lay above it. */
  lemma PointSurvivesEveryRotation(hash: Hash, s: State, deleted: seq<nat>)
    requires Inv(s) && s.phase.Idle? && Retirable(Checkpointed(CoreRotated(s)), deleted)
    ensures Runs(hash, s, CORE_ROTATION + HookActions(deleted))
    ensures var w' := Final(hash, s, CORE_ROTATION + HookActions(deleted)).wal; var point := s.metaState.lastBackupLsn;
      && (CanServeFrom(w', point) <==> forall i :: point <= i < |s.wal.log| ==> s.wal.home[i] !in deleted)
      && (NoRotate(s.wal.log[point..]) ==> CanServeFrom(w', point))
  {
    RotationDid(hash, s, deleted);
    AfterHookIsRotated(s, deleted);
    hide Runs, Final, Inv, HookActions, AfterHook, CoreRotated, Checkpointed, Retirable, Rotated;
    PointSurvivesRotation(s, AfterHook(CoreRotated(s), deleted).wal, deleted);
  }

  lemma AfterHookIsRotated(s: State, deleted: seq<nat>)
    requires Inv(s) && s.phase.Idle? && Retirable(Checkpointed(CoreRotated(s)), deleted)
    ensures Rotated(s.wal, AfterHook(CoreRotated(s), deleted).wal, deleted)
  {
    hide LogShape, FilesKept, MetaBehind, UnlinkAll, FileMax;
  }

  // ---- Startup ----

  function Replays(n: nat): seq<Action> {
    seq(n, _ => ReplayEvent)
  }

  /** The items of a tail that startup applies: its entries, not its tombstones and markers. */
  function EntryItems(tail: seq<Event>): seq<Text> {
    if tail == [] then []
    else EntryItems(tail[..|tail| - 1]) + (if tail[|tail| - 1].Entry? then [tail[|tail| - 1].item] else [])
  }

  function Replayed(hash: Hash, s: State, tail: seq<Event>, n: nat): State
    requires n <= |tail|
  {
    var items := EntryItems(tail[..n]);
    s.(core := s.core.(temp := s.core.temp + items), pair := s.pair.(current := s.pair.current + ItemBits(hash, items)),
       phase := Replaying(tail[n..]))
  }

  lemma ItemsOfNext(tail: seq<Event>, n: nat)
    requires n < |tail|
    ensures EntryItems(tail[..n + 1]) == EntryItems(tail[..n]) + if tail[n].Entry? then [tail[n].item] else []
  {
    assert tail[..n + 1][..n] == tail[..n];
  }

  lemma ReplayFrame(hash: Hash, s: State)
    requires Enabled(s, ReplayEvent)
    ensures var e := s.phase.tail[0]; var items := if e.Entry? then [e.item] else [];
      Do(hash, s, ReplayEvent) == s.(phase := Replaying(s.phase.tail[1..]),
        core := s.core.(temp := s.core.temp + items),
        pair := if e.Entry? then AddItem(hash, s.pair, e.item) else s.pair)
  {
    assert s.core.temp + [] == s.core.temp;
  }

  lemma ReplayOne(hash: Hash, s: State, tail: seq<Event>, n: nat)
    requires n < |tail| && Enabled(Replayed(hash, s, tail, n), ReplayEvent)
    ensures Do(hash, Replayed(hash, s, tail, n), ReplayEvent) == Replayed(hash, s, tail, n + 1)
  {
    hide Enabled, Do, EntryItems, ItemBits;
    ItemsOfNext(tail, n);
    var items, more := EntryItems(tail[..n]), if tail[n].Entry? then [tail[n].item] else [];
    assert tail[n..][0] == tail[n] && tail[n..][1..] == tail[n + 1..];
    assert s.core.temp + items + more == s.core.temp + (items + more);
    ReplayFrame(hash, Replayed(hash, s, tail, n));
    if tail[n].Entry? {
      ItemBitsAppend(hash, items, tail[n].item);
    } else {
      assert items + [] == items;
    }
  }

  lemma {:induction false} ReplayDid(hash: Hash, s: State, run: seq<Action>, s': State, tail: seq<Event>, n: nat)
    requires Inv(s') && s'.phase == Replaying(tail) && Did(hash, s, run, s') && n <= |tail|
    ensures Did(hash, s, run + Replays(n), Replayed(hash, s', tail, n)) && Inv(Replayed(hash, s', tail, n))
  {
    hide Inv, Did;
    if n == 0 {
      assert Replayed(hash, s', tail, 0) == s' by {
        assert tail[..0] == [] && tail[0..] == tail;
        assert s'.core.temp + [] == s'.core.temp;
      }
      assert run + Replays(0) == run;
    } else {
      ReplayDid(hash, s, run, s', tail, n - 1);
      var s1 := Replayed(hash, s', tail, n - 1);
      InvHasHomes(s1);
      assert tail[n - 1..] != [];
      DidAnother(hash, s, run + Replays(n - 1), s1, ReplayEvent);
      ReplayOne(hash, s', tail, n - 1);
      assert run + Replays(n - 1) + [ReplayEvent] == run + Replays(n);
    }
  }

  lemma InvHasHomes(s: State)
    requires Inv(s)
    ensures |s.wal.home| == |s.wal.log|
  {
  }

  lemma ReplayStart(hash: Hash, s: State, tail: seq<Event>)
    ensures Replayed(hash, s, tail, 0).(phase := s.phase) == s
  {
    assert tail[..0] == [];
    assert s.core.temp + [] == s.core.temp;
  }

  lemma ReplayStep(hash: Hash, s: State, tail: seq<Event>, i: nat)
    requires i < |tail|
    ensures var items, next := EntryItems(tail[..i]), EntryItems(tail[..i + 1]);
      if tail[i].Entry? then
        next == items + [tail[i].item] && ItemBits(hash, next) == ItemBits(hash, items) + hash(tail[i].item)
      else
        next == items
  {
    assert tail[..i + 1] == tail[..i] + [tail[i]];
    assert tail[..i + 1][..i] == tail[..i];
    if tail[i].Entry? {
      ItemBitsAppend(hash, EntryItems(tail[..i]), tail[i].item);
    }
  }

  /** The log as a freshly opened directory: nothing is known yet of floor and generation. */
  function Opened(s: State): Wal {
    s.wal.(generation := Gen(s.wal.log), deletedMax := s.meta.lastBackupLsn)
  }

  lemma OpenedIsWellFormed(s: State)
    requires Inv(s)
    ensures WellFormed(Opened(s))
    ensures Gen(s.wal.log) !in s.wal.files ==> Gen(s.wal.log) !in s.wal.home
    ensures forall i :: 0 <= i < |s.wal.log| && !s.wal.log[i].Rotate? ==> ValidItem(s.wal.log[i].item)
  {
    var log := s.wal.log;
    forall i | 0 <= i < |log| ensures s.wal.home[i] <= Gen(log) {
      GenMonotone(log, i);
    }
  }

  lemma OpenedHolds(files: map<nat, Text>, records: map<nat, seq<Event>>, s: State)
    requires Inv(s) && files.Keys == records.Keys && CanonicalWal.FilesHold(files, records, s.wal)
    ensures CanonicalWal.FilesHold(files, records, Opened(s))
  {
    CanonicalWal.FilesHoldFrame(files, records, s.wal, Opened(s));
  }

  /** What startup finds on disk resumes numbering exactly where the log ended. */
  lemma StartupResumes(hash: Hash, s: State, maxLsn: nat, maxGeneration: nat)
    requires Inv(s) && s.phase.Down?
    requires Bounds(Opened(s), s.wal.files, maxLsn, maxGeneration) && Mentions(Opened(s), maxLsn, maxGeneration)
    ensures Enabled(s, Boot(maxLsn, maxGeneration))
    ensures Max(s.meta.lastLsn, maxLsn) == |s.wal.log| && Max(s.meta.generation, maxGeneration) == Gen(s.wal.log)
    ensures s.meta.lastBackupLsn <= |s.wal.log|
    ensures var b := Do(hash, s, Boot(maxLsn, maxGeneration));
      && Did(hash, s, [Boot(maxLsn, maxGeneration)], b) && Inv(b) && b.phase.Replaying?
      && (forall e <- b.phase.tail :: !e.Rotate? ==> ValidItem(e.item))
  {
    SameBounds(s, maxLsn, maxGeneration);
    BootResumes(s, maxLsn, maxGeneration);
    OpenedIsWellFormed(s);
    hide LogShape, FilesKept, Gen, Bounds, Mentions, Did, ValidItem;
    Did1(hash, s, Boot(maxLsn, maxGeneration));
    BootTail(hash, s, maxLsn, maxGeneration);
  }

  lemma SameBounds(s: State, maxLsn: nat, maxGeneration: nat)
    requires |s.wal.home| == |s.wal.log|
    requires Bounds(Opened(s), s.wal.files, maxLsn, maxGeneration) && Mentions(Opened(s), maxLsn, maxGeneration)
    ensures Bounds(s.wal, s.wal.files, maxLsn, maxGeneration) && Mentions(s.wal, maxLsn, maxGeneration)
  {
    forall lsn: nat ensures Retained(s.wal, lsn) <==> Retained(Opened(s), lsn) {}
    forall lsn: nat ensures InFiles(s.wal, s.wal.files, lsn) <==> InFiles(Opened(s), s.wal.files, lsn) {}
  }

  /** Booting reads memory off the disk. */
  lemma BootFrame(hash: Hash, s: State, boot: Action)
    requires boot.Boot? && Enabled(s, boot)
    ensures var b := Do(hash, s, boot);
      && b.core == s.core && b.meta == b.metaState == s.meta && b.pair == Restore(hash, s.core)
      && b.phase == Replaying(ReadSince(b.wal, s.meta.lastBackupLsn, REPLAY_BATCH_LIMIT))
  {
    assert |Do(hash, s, boot).wal.home| == |Do(hash, s, boot).wal.log|;
  }

  lemma StartupDid(hash: Hash, s: State, boot: Action, b: State, tail: seq<Event>)
    requires Did(hash, s, [boot], b) && Inv(b) && b.phase == Replaying(tail)
    ensures var r := Replayed(hash, b, tail, |tail|);
      var m := Meta(r.wal.generation, Before(r.nextLsn), r.metaState.lastBackupLsn);
      && Did(hash, s, [boot] + Replays(|tail|) + [FinishBoot], r.(meta := m, metaState := m, phase := Idle))
      && Inv(r.(meta := m, metaState := m, phase := Idle))
  {
    hide Did, Inv;
    ReplayDid(hash, s, [boot], b, tail, |tail|);
    var r := Replayed(hash, b, tail, |tail|);
    InvHasHomes(r);
    assert tail[|tail|..] == [];
    DidAnother(hash, s, [boot] + Replays(|tail|), r, FinishBoot);
  }

  class Coordinator {
    const canonical: CanonicalWal.CanonicalWal
    const revoker: FilterManager.BloomFilterManager
    var metaFile: Meta
    var metaState: Meta
    var lastRotateLsn: nat
    var ready: bool
    var shuttingDown: bool
    var broadcasts: seq<Live>
    ghost var phase: Phase
    ghost var cutFrom: nat
    ghost var cutTo: nat
    ghost var blobAt: nat

    ghost function Abs(): State
      reads this, canonical, revoker
    {
      State(canonical.wal, metaFile, revoker.Disk(), canonical.nextLsn, metaState, revoker.Pair(), phase, cutFrom,
          cutTo, blobAt)
    }

    ghost predicate Valid()
      reads this, canonical, revoker
    {
      canonical.Valid() && revoker.Valid() && Inv(Abs()) && ready
    }

    /** Opens the canonical log: scan, then resume above everything the meta file and the scan name. */
    static method OpenLog(ghost s: State, ghost hash: Hash, files: map<nat, Text>,
                          ghost records: map<nat, seq<Event>>, meta: Meta)
      returns (wal: CanonicalWal.CanonicalWal, lastLsn: nat, generation: nat, ghost boot: Action)
      requires Inv(s) && s.phase.Down? && s.meta == meta
      requires files.Keys == records.Keys == s.wal.files && CanonicalWal.FilesHold(files, records, s.wal)
      requires Gen(s.wal.log) in records ==> CanonicalWal.NoMarker(records[Gen(s.wal.log)])
      ensures fresh(wal) && wal.Valid() && boot.Boot? && Enabled(s, boot)
      ensures var b := Do(hash, s, boot);
        && wal.wal == b.wal && wal.nextLsn == b.nextLsn == lastLsn + 1 && wal.generation == generation
        && Did(hash, s, [boot], b) && Inv(b) && b.phase.Replaying?
        && (forall e <- b.phase.tail :: !e.Rotate? ==> ValidItem(e.item))
    {
      hide Inv, Did, CanonicalWal.FilesHold, WellFormed, Restore, Bounds, Mentions, Gen, ReadSince, ValidItem;
      OpenedIsWellFormed(s);
      OpenedHolds(files, records, s);
      wal := new CanonicalWal.CanonicalWal(files, records, Opened(s));
      var maxLsn, maxGeneration := wal.Scan();
      StartupResumes(hash, s, maxLsn, maxGeneration);
      lastLsn := if meta.lastLsn >= maxLsn then meta.lastLsn else maxLsn;
      generation := if meta.generation >= maxGeneration then meta.generation else maxGeneration;
      wal.Init(lastLsn + 1, generation, meta.lastBackupLsn);
      boot := Boot(maxLsn, maxGeneration);
    }

    /** Starts on the files an earlier process, or none, left behind. */
    constructor (ghost s: State, hash: Hash, numItems: nat, files: map<nat, Text>, ghost records: map<nat, seq<Event>>,
                 core: CoreDisk, tempFile: Text, meta: Meta)
      requires Inv(s) && s.phase.Down? && s.core == core && s.meta == meta
      requires files.Keys == records.Keys == s.wal.files && CanonicalWal.FilesHold(files, records, s.wal)
      requires Gen(s.wal.log) in records ==> CanonicalWal.NoMarker(records[Gen(s.wal.log)])
      requires tempFile == Unlines(core.temp) && forall i :: 0 <= i < |core.temp| ==> ValidItem(core.temp[i])
      ensures Valid() && phase.Idle? && revoker.hash == hash
      ensures exists maxLsn, maxGeneration, n ::
        Did(hash, s, [Boot(maxLsn, maxGeneration)] + Replays(n) + [FinishBoot], Abs())
    {
      hide Inv, Did, CanonicalWal.FilesHold, WellFormed, Unlines, Restore, Bounds, Mentions, Gen, ReadSince;
      hide Replays, EntryItems, ItemBits, ValidItem, Enabled, Do, FilterManager.BloomFilterManager.Valid;
      var wal, effectiveLastLsn, effectiveGeneration, boot := OpenLog(s, hash, files, records, meta);
      var manager := new FilterManager.BloomFilterManager(hash, numItems, core, tempFile);
      ghost var b := Do(hash, s, boot);
      BootFrame(hash, s, boot);
      canonical := wal;
      revoker := manager;
      metaFile := meta;
      metaState := meta;
      lastRotateLsn := 0;
      ready := false;
      shuttingDown := false;
      broadcasts := [];
      phase := b.phase;
      cutFrom := b.cutFrom;
      cutTo := b.cutTo;
      blobAt := b.blobAt;
      new;
      assert Abs() == b;
      ReplayCanonicalTail();
      StartupDid(hash, s, boot, b, b.phase.tail);
      metaState := Meta(effectiveGeneration, effectiveLastLsn, metaState.lastBackupLsn);
      metaFile := metaState;
      ready := true;
      phase := Idle;
      assert boot == Boot(boot.maxLsn, boot.maxGeneration);
      assert Did(hash, s, [boot] + Replays(|b.phase.tail|) + [FinishBoot], Abs());
    }

    /** Applies the entries above the consistency point again; tombstones and markers are skipped. */
    method ReplayCanonicalTail()
      requires canonical.Valid() && revoker.Valid() && !revoker.shuttingDown
      requires phase == Replaying(WalSpec.ReadSince(canonical.wal, metaState.lastBackupLsn, REPLAY_BATCH_LIMIT))
      requires forall e <- phase.tail :: !e.Rotate? ==> ValidItem(e.item)
      modifies revoker, canonical`generationOfFile, this`phase
      ensures revoker.Valid() && !revoker.shuttingDown && canonical.Valid()
      ensures Abs() == Replayed(revoker.hash, old(Abs()), old(phase).tail, |old(phase).tail|)
    {
      hide ValidItem, WalSpec.ReadSince, Restore, Unlines, EntryItems, ItemBits;
      ghost var s := Abs();
      var tail := canonical.ReadSince(metaState.lastBackupLsn, REPLAY_BATCH_LIMIT);
      ReplayStart(revoker.hash, s, tail);
      for i := 0 to |tail|
        invariant revoker.Valid() && !revoker.shuttingDown && canonical.Valid()
        invariant Abs().(phase := s.phase) == Replayed(revoker.hash, s, tail, i).(phase := s.phase)
      {
        ReplayStep(revoker.hash, s, tail, i);
        var event := tail[i];
        if event.Entry? {
          FilterManager.ChecksAgree(event.item);
          var applied := revoker.ApplyEntry(event.item);
        }
      }
      phase := Replaying(tail[|tail|..]);
    }

    /** Canonical log first, then the local filter, and a tombstone when that refuses. */
    method Record(item: Text) returns (lsn: nat, success: bool)
      requires Valid() && phase.Idle? && ValidItem(item)
      modifies canonical, revoker
      ensures Valid() && lsn == |old(canonical.wal.log)| + 1
      ensures Did(revoker.hash, old(Abs()), AddActions(item, success), Abs())
      ensures canonical.generation == old(canonical.wal.generation)
      ensures success <==>
        !old(revoker.shuttingDown)
          && old(revoker.currentInsertions) <= 10 * revoker.numItems
    {
      hide Inv, Did, Restore, Unlines, WellFormed, CanonicalWal.FilesHold;
      ghost var s := Abs();
      FilterManager.ChecksAgree(item);
      ValidHasNoNewline(item);
      hide ValidItem, FilterManager.CheckItem;
      lsn := canonical.AppendEntry(item);
      var applied := revoker.Add(item);
      success := applied == FilterManager.Ok;
      if !success {
        canonical.AppendTombstone(lsn, item);
      }
      AddDid(revoker.hash, s, item, success);
      assert Abs() == AfterAdd(revoker.hash, s, item, success);
    }

    /** Revokes an item; subscribers hear of it whether or not the local filter took it. */
    method Add(item: Text) returns (r: AddResult)
      requires Valid() && phase.Idle?
      modifies this`broadcasts, canonical, revoker
      ensures Valid() && phase.Idle?
      ensures r.ShuttingDown? <==> shuttingDown
      ensures r.Invalid? <==> !shuttingDown && !ValidItem(item)
      ensures !r.Added? ==> Abs() == old(Abs()) && broadcasts == old(broadcasts)
      ensures r.Added? ==>
        && r.lsn == |old(canonical.wal.log)| + 1
        && Did(revoker.hash, old(Abs()), AddActions(item, r.success), Abs())
        && broadcasts == old(broadcasts) + [LiveEntry(r.lsn, old(canonical.wal.generation), item)]
        && r.success == (!old(revoker.shuttingDown)
                         && old(revoker.currentInsertions) <= 10 * revoker.numItems)
    {
      hide Inv, Did, Restore, Unlines, WellFormed, CanonicalWal.FilesHold, ValidItem;
      if shuttingDown {
        return ShuttingDown;
      }
      var invalid := ItemValidationError(item);
      if invalid.Some? {
        return Invalid(invalid.value);
      }
      var lsn, success := Record(item);
      broadcasts := broadcasts + [LiveEntry(lsn, canonical.generation, item)];
      r := Added(success, lsn);
    }

    /** A rotation of core, and the hook it calls. `stuck` are the log files whose unlink fails. */
    method Rotate(stuck: set<nat>) returns (ghost deleted: seq<nat>)
      requires Valid() && phase.Idle?
      modifies this, canonical, revoker
      ensures Valid()
      ensures shuttingDown == old(shuttingDown)
      ensures shuttingDown ==> Did(revoker.hash, old(Abs()), CORE_ROTATION, Abs()) && broadcasts == old(broadcasts)
      ensures !shuttingDown ==>
        && phase.Idle?
        && Did(revoker.hash, old(Abs()), CORE_ROTATION + HookActions(deleted), Abs())
        && broadcasts == old(broadcasts) + [LiveRotate(lastRotateLsn, metaState.generation)]
        && lastRotateLsn == metaState.lastBackupLsn == |canonical.wal.log|
        && (forall g <- canonical.wal.files :: metaState.generation <= g + 1 || g in stuck)
    {
      hide Inv, Did, Restore, Unlines, WellFormed, CanonicalWal.FilesHold, HookActions;
      ghost var s := Abs();
      CoreRotationDid(revoker.hash, s);
      revoker.Rotate();
      phase := Promoted;
      blobAt := |canonical.wal.log|;
      assert Abs() == CoreRotated(s);
      deleted := OnCoreRotation(stuck, s, CORE_ROTATION);
    }

    /** Marker first, then the meta file: the marker's LSN becomes the consistency point. */
    method Checkpoint() returns (rotateLsn: nat)
      requires Valid() && phase.Promoted?
      modifies this`metaFile, this`metaState, this`phase, this`blobAt, canonical
      ensures canonical.Valid() && Abs() == Checkpointed(old(Abs()))
      ensures rotateLsn == metaState.lastBackupLsn && metaState.generation == canonical.generation
    {
      hide Restore, Unlines, WellFormed, CanonicalWal.FilesHold, LogShape, FilesKept, MetaBehind;
      ghost var s := Abs();
      var newGeneration := metaState.generation + 1;
      rotateLsn := canonical.AppendRotate(newGeneration);
      hide Inv;
      metaState := Meta(newGeneration, canonical.LastLsn(), rotateLsn);
      metaFile := metaState;
      phase := Retaining;
      blobAt := rotateLsn;
    }

    /** Retention at a consistency point that is the newest event: two generations stay, and what cannot be unlinked. */
    method Retire(rotateLsn: nat, stuck: set<nat>) returns (ghost deleted: seq<nat>)
      requires canonical.Valid() && metaState.generation == canonical.generation > 0
      requires rotateLsn == |canonical.wal.log|
      modifies canonical
      ensures canonical.Valid() && canonical.wal == UnlinkAll(old(canonical.wal), deleted)
      ensures CanonicalWal.Distinct(deleted) && canonical.nextLsn == old(canonical.nextLsn)
      ensures forall g <- deleted :: Deletable(old(canonical.wal), metaState.generation - 1, rotateLsn, g)
      ensures forall g <- canonical.wal.files :: metaState.generation <= g + 1 || g in stuck
    {
      hide WellFormed, CanonicalWal.FilesHold, UnlinkAll, Deletable, CanonicalWal.Distinct;
      var gone := canonical.TruncateOldGenerations(metaState.generation - 1, rotateLsn, stuck);
      deleted := gone;
    }

    /** Makes a core rotation canonical: marker, meta checkpoint, retention, broadcast. */
    method OnCoreRotation(stuck: set<nat>, ghost s: State, ghost run: seq<Action>) returns (ghost deleted: seq<nat>)
      requires Valid() && phase.Promoted? && Did(revoker.hash, s, run, Abs())
      modifies this, canonical
      ensures Valid()
      ensures shuttingDown == old(shuttingDown)
      ensures shuttingDown ==> Abs() == old(Abs()) && broadcasts == old(broadcasts)
      ensures !shuttingDown ==>
        && phase.Idle?
        && Did(revoker.hash, s, run + HookActions(deleted), Abs())
        && broadcasts == old(broadcasts) + [LiveRotate(lastRotateLsn, metaState.generation)]
        && lastRotateLsn == metaState.lastBackupLsn == |canonical.wal.log|
        && (forall g <- canonical.wal.files :: metaState.generation <= g + 1 || g in stuck)
    {
      hide Did, Restore, Unlines, WellFormed, CanonicalWal.FilesHold, HookActions, CanonicalWal.Distinct, Inv,
          UnlinkAll;
      deleted := [];
      if !ready || shuttingDown {
        return;
      }
      ghost var s' := Abs();
      InvHasHomes(s');
      var rotateLsn := Checkpoint();
      deleted := Retire(rotateLsn, stuck);
      lastRotateLsn := rotateLsn;
      broadcasts := broadcasts + [LiveRotate(rotateLsn, metaState.generation)];
      phase := Idle;
      HookDid(revoker.hash, s, run, s', deleted);
    }

    /** A periodic backup of core. */
    method Backup()
      requires Valid() && phase.Idle?
      modifies this`blobAt, revoker
      ensures Valid() && Did(revoker.hash, old(Abs()), [WriteBlob, ClearTemp], Abs())
    {
      hide Inv, Did, Restore, Unlines, WellFormed, CanonicalWal.FilesHold;
      ghost var s := Abs();
      BackupDid(revoker.hash, s);
      revoker.BackupLocal();
      blobAt := |canonical.wal.log|;
    }

    /**
     * The two blobs as they lie on disk, under the consistency point of the last checkpoint. In a
     * process that never crashed they cover the coordinator's filters at that point, except in the
     * promoted window.
     */
    method GetSnapshot() returns (snapshot: Snapshot)
      requires Valid()
      ensures snapshot.lastBackupLsn == Abs().metaState.lastBackupLsn
      ensures snapshot.generation == Abs().metaState.generation
      ensures Pair(OrEmpty(snapshot.currentBlob), OrEmpty(snapshot.previousBlob)) == SnapshotPair(Abs())
      ensures InStep(revoker.hash, Abs()) && AtAwait(Abs()) && !phase.Promoted? ==>
        && snapshot.lastBackupLsn <= |canonical.wal.log|
        && Covers(Pair(OrEmpty(snapshot.currentBlob), OrEmpty(snapshot.previousBlob)),
                  CoordinatorPair(revoker.hash, canonical.wal.log, snapshot.lastBackupLsn))
        && snapshot.generation == Gen(canonical.wal.log[..snapshot.lastBackupLsn])
    {
      hide Inv, InStep, Restore, Unlines, Covers, CoordinatorPair;
      snapshot := Snapshot(revoker.currentBlob, revoker.previousBlob, metaState.generation, metaState.lastBackupLsn);
      if InStep(revoker.hash, Abs()) && AtAwait(Abs()) && !phase.Promoted? {
        SnapshotCoversPoint(revoker.hash, Abs());
        SnapshotNamesGeneration(revoker.hash, Abs());
      }
    }
  }

  lemma SnapshotNamesGeneration(hash: Hash, s: State)
    requires InStep(hash, s) && AtAwait(s)
    ensures s.metaState.lastBackupLsn <= |s.wal.log|
    ensures s.metaState.generation == Gen(s.wal.log[..s.metaState.lastBackupLsn])
  {
    FiltersAtPoint(hash, s);
    SnapshotGeneration(s);
  }

  lemma ValidHasNoNewline(item: Text)
    requires ValidItem(item)
    ensures NEWLINE !in item
  {
  }
}
