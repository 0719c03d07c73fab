// The coordinator as a state machine whose steps are single file operations, so that a
// crash can fall between any two of them: canonical log, meta file, core's blobs and
// write-ahead file, and the memory rebuilt from them at startup.
module Coordinator {
  import opened Texts
  import opened WalSpec
  import opened Filters
  import opened CoreDisk

  const REPLAY_BATCH_LIMIT: nat := 1_000_000

  datatype Meta = Meta(generation: nat, lastLsn: nat, lastBackupLsn: nat)

  datatype Phase =
    | Down
    | Replaying(tail: seq<Event>)   // startup: canonical tail still to apply
    | Idle
    | Adding                        // entry appended, not yet applied locally
    | BlobWritten                   // periodic backup: blob renamed, write-ahead file not yet cleared
    | RotationBlobWritten           // rotation: same point of backupLocal
    | RotationCleared               // rotation: write-ahead file cleared, blob not yet promoted
    | Promoted                      // blob promoted and memory swapped, marker not yet appended
    | Marked                        // marker appended, meta not yet written
    | Retaining                     // meta written, old files being unlinked

  datatype State = State(
    wal: Wal,
    meta: Meta,
    core: CoreDisk,
    // memory
    nextLsn: nat,
    metaState: Meta,
    pair: Pair,
    phase: Phase,
    // bookkeeping of the proof: positions the last startup replay left out (REPLAY_BATCH_LIMIT) ...
    cutFrom: nat,
    cutTo: nat,
    blobAt: nat)                    // ... and the log position the current blob goes up to

  datatype Action =
    | AppendEntry(item: Text)
    | ApplyLocally
    | RefuseLocally
    | WriteBlob
    | ClearTemp
    | RotateWriteBlob
    | RotateClearTemp
    | Promote
    | AppendMarker
    | WriteMeta
    | UnlinkFile(g: nat)
    | FinishRotation
    | Crash
    | LoseCoreFiles
    | Boot(maxLsn: nat, maxGeneration: nat)
    | ReplayEvent
    | FinishBoot

  function Max(a: nat, b: nat): nat { if a >= b then a else b }

  function Before(n: nat): nat { if n == 0 then 0 else n - 1 }

  function NewestItem(s: State): Text
    requires |s.wal.log| > 0 && s.wal.log[|s.wal.log| - 1].Entry?
  {
    s.wal.log[|s.wal.log| - 1].item
  }

  ghost predicate Enabled(s: State, a: Action) {
    && |s.wal.home| == |s.wal.log|
    && match a
      case AppendEntry(item) => s.phase.Idle? && ValidItem(item)
      case ApplyLocally => s.phase.Adding? && |s.wal.log| > 0 && s.wal.log[|s.wal.log| - 1].Entry?
      case RefuseLocally => s.phase.Adding? && |s.wal.log| > 0 && s.wal.log[|s.wal.log| - 1].Entry?
      case WriteBlob => s.phase.Idle?
      case ClearTemp => s.phase.BlobWritten?
      case RotateWriteBlob => s.phase.Idle?
      case RotateClearTemp => s.phase.RotationBlobWritten?
      case Promote => s.phase.RotationCleared?
      case AppendMarker => s.phase.Promoted?
      case WriteMeta => s.phase.Marked?
      case UnlinkFile(g) => s.phase.Retaining?
        && Deletable(s.wal, Before(s.metaState.generation), s.metaState.lastBackupLsn, g)
      case FinishRotation => s.phase.Retaining?
      case Crash => true
      case LoseCoreFiles => s.phase.Down?
      case Boot(maxLsn, maxGeneration) => s.phase.Down?
        && Bounds(s.wal, s.wal.files, maxLsn, maxGeneration) && Mentions(s.wal, maxLsn, maxGeneration)
      case ReplayEvent => s.phase.Replaying? && s.phase.tail != []
      case FinishBoot => s.phase.Replaying? && s.phase.tail == []
  }

  ghost function Do(hash: Hash, s: State, a: Action): State
    requires Enabled(s, a)
  {
    match a
    case AppendEntry(item) =>
      s.(wal := Append(s.wal, Entry(s.nextLsn, s.wal.generation, item)), nextLsn := s.nextLsn + 1, phase := Adding)
    case ApplyLocally =>
      s.(core := s.core.(temp := s.core.temp + [NewestItem(s)]), pair := AddItem(hash, s.pair, NewestItem(s)),
          phase := Idle)
    case RefuseLocally => s.(wal := AppendTombstone(s.wal), phase := Idle)
    case WriteBlob => s.(core := s.core.(current := Some(s.pair.current)), phase := BlobWritten, blobAt := |s.wal.log|)
    case ClearTemp => s.(core := s.core.(temp := []), phase := Idle)
    case RotateWriteBlob =>
      s.(core := s.core.(current := Some(s.pair.current)), phase := RotationBlobWritten, blobAt := |s.wal.log|)
    case RotateClearTemp => s.(core := s.core.(temp := []), phase := RotationCleared)
    case Promote =>
      s.(core := s.core.(current := None, previous := s.core.current), pair := Shift(s.pair), phase := Promoted)
    case AppendMarker =>
      var g := s.metaState.generation + 1;
      s.(wal := Append(s.wal, Rotate(s.nextLsn, g)).(generation := g), nextLsn := s.nextLsn + 1, phase := Marked,
         blobAt := |s.wal.log| + 1)
    case WriteMeta =>
      var m := Meta(s.metaState.generation + 1, Before(s.nextLsn), Before(s.nextLsn));
      s.(meta := m, metaState := m, phase := Retaining)
    case UnlinkFile(g) => s.(wal := Unlink(s.wal, g))
    case FinishRotation => s.(phase := Idle)
    case Crash => s.(phase := Down)
    case LoseCoreFiles => s.(core := s.core.(current := None, temp := []))
    case Boot(maxLsn, maxGeneration) =>
      var w := s.wal.(generation := Max(s.meta.generation, maxGeneration), deletedMax := s.meta.lastBackupLsn);
      s.(wal := w, nextLsn := Max(s.meta.lastLsn, maxLsn) + 1, metaState := s.meta, pair := Restore(hash, s.core),
         phase := Replaying(ReadSince(w, s.meta.lastBackupLsn, REPLAY_BATCH_LIMIT)),
         cutFrom := s.meta.lastBackupLsn + REPLAY_BATCH_LIMIT, cutTo := |w.log|)
    case ReplayEvent =>
      var e := s.phase.tail[0];
      var s' := s.(phase := Replaying(s.phase.tail[1..]));
      if e.Entry? then
        s'.(core := s.core.(temp := s.core.temp + [e.item]), pair := AddItem(hash, s.pair, e.item))
      else s'
    case FinishBoot =>
      var m := Meta(s.wal.generation, Before(s.nextLsn), s.metaState.lastBackupLsn);
      s.(meta := m, metaState := m, phase := Idle)
  }

  ghost predicate Runs(hash: Hash, s: State, run: seq<Action>)
    decreases |run|
  {
    run == [] || (Enabled(s, run[0]) && Runs(hash, Do(hash, s, run[0]), run[1..]))
  }

  ghost function Final(hash: Hash, s: State, run: seq<Action>): State
    requires Runs(hash, s, run)
    decreases |run|
  {
    if run == [] then s else Final(hash, Do(hash, s, run[0]), run[1..])
  }

  /** A run, one action longer. */
  lemma {:induction false} RunAppend(hash: Hash, s: State, run: seq<Action>, a: Action)
    requires Runs(hash, s, run) && Enabled(Final(hash, s, run), a)
    ensures Runs(hash, s, run + [a]) && Final(hash, s, run + [a]) == Do(hash, Final(hash, s, run), a)
    decreases |run|
  {
    hide Enabled, Do;
    if run == [] {
      assert run + [a] == [a] && [a][1..] == [];
    } else {
      RunAppend(hash, Do(hash, s, run[0]), run[1..], a);
      assert (run + [a])[1..] == run[1..] + [a];
    }
  }

  /** An empty data directory, about to be opened for the first time. */
  const FRESH: State :=
    State(Wal([], [], {}, 0, 0), Meta(0, 0, 0), CoreDisk(None, None, []), 0, Meta(0, 0, 0), EMPTY, Down, 0, 0, 0)

  // ---- The log and its files, over every run with any number of crashes ----

  /** The log as such: numbered, generations in step, each event in the file of its generation. */
  ghost predicate LogShape(w: Wal)
    ensures LogShape(w) ==> |w.home| == |w.log|
  {
    && Ordered(w.log) && Generations(w.log) && |w.home| == |w.log|
    && (forall i :: 0 <= i < |w.log| ==> w.home[i] == Gen(w.log[..i]))
    && (forall i :: 0 <= i < |w.log| && !w.log[i].Rotate? ==> ValidItem(w.log[i].item))
  }

  /** Retention spares the files of the two newest generations and of every event above `backup`. */
  ghost predicate FilesKept(w: Wal, backup: nat)
    requires |w.home| == |w.log|
  {
    && (forall g <- w.files :: g <= Gen(w.log))
    && (forall i :: 0 <= i < |w.log| && (backup <= i || Gen(w.log) <= w.home[i] + 1) ==> w.home[i] in w.files)
  }

  /** A meta file never runs ahead of the log, and its consistency point is a rotation marker. */
  ghost predicate MetaBehind(log: seq<Event>, m: Meta) {
    && m.generation <= Gen(log) && m.lastLsn <= |log| && m.lastBackupLsn <= |log|
    && (m.lastBackupLsn > 0 ==> log[m.lastBackupLsn - 1].Rotate?)
  }

  /** What the disk holds, whatever happened so far. */
  ghost predicate Durable(s: State) {
    LogShape(s.wal) && FilesKept(s.wal, s.meta.lastBackupLsn) && MetaBehind(s.wal.log, s.meta)
  }

  /** What memory knows about the disk while the process is up. */
  ghost predicate Volatile(s: State)
    requires |s.wal.home| == |s.wal.log|
  {
    var log := s.wal.log;
    && s.nextLsn == |log| + 1
    && s.wal.generation == Gen(log)
    && s.wal.deletedMax <= s.meta.lastBackupLsn <= |log|
    && (forall i :: s.wal.deletedMax <= i < |log| ==> s.wal.home[i] in s.wal.files)
    && s.metaState.lastBackupLsn == s.meta.lastBackupLsn
    && (s.phase.Adding? ==> |log| > s.meta.lastBackupLsn && log[|log| - 1].Entry?)
    && (s.phase.Marked? ==> Gen(log) == s.metaState.generation + 1 && log != [] && log[|log| - 1].Rotate?)
    && (!s.phase.Marked? && !s.phase.Replaying? ==> Gen(log) == s.metaState.generation)
    && (s.phase.Retaining? ==> s.metaState == s.meta && s.meta.lastBackupLsn == |log|)
  }

  ghost predicate Inv(s: State) {
    Durable(s) && (!s.phase.Down? ==> Volatile(s))
  }

  /** The newest event's file and the newest marker's file are never deleted. */
  lemma NewestIsRetained(s: State)
    requires Durable(s) && s.wal.log != []
    ensures Retained(s.wal, |s.wal.log|)
    ensures Gen(s.wal.log) > 0 ==> exists lsn: nat ::
      Retained(s.wal, lsn) && s.wal.log[lsn - 1] == Rotate(lsn, Gen(s.wal.log))
  {
    var log := s.wal.log;
    var k := |log| - 1;
    assert Gen(log) <= Gen(log[..k]) + 1;
    if Gen(log) > 0 {
      var lsn := NewestMarker(log);
      assert s.wal.home[lsn - 1] == Gen(log[..lsn - 1]);
    }
  }

  lemma {:induction false} NewestMarker(log: seq<Event>) returns (lsn: nat)
    requires Ordered(log) && Generations(log) && Gen(log) > 0
    ensures 1 <= lsn <= |log| && log[lsn - 1] == Rotate(lsn, Gen(log)) && NoRotate(log[lsn..])
  {
    var k := |log| - 1;
    hide NoRotate;
    if log[k].Rotate? {
      lsn := |log|;
      assert log[lsn..] == [];
      NoRotateNothing();
    } else {
      GenerationsPrefix(log, k);
      lsn := NewestMarker(log[..k]);
      assert log[lsn..] == log[..k][lsn..] + [log[k]];
      NoRotateAppend(log[..k][lsn..], log[k]);
    }
  }

  /** The same for a bare log: reading always reaches its end. */
  lemma NewestHome(w: Wal, backup: nat)
    requires LogShape(w) && FilesKept(w, backup) && w.log != []
    ensures Retained(w, |w.log|)
  {
    assert Gen(w.log) <= Gen(w.log[..|w.log| - 1]) + 1;
  }

  /**
   * LSN and generation resumption: what startup derives from the meta file and the retained
   * files is exactly the length and the generation of everything ever written.
   */
  lemma BootResumes(s: State, maxLsn: nat, maxGeneration: nat)
    requires Durable(s) && Bounds(s.wal, s.wal.files, maxLsn, maxGeneration) && Mentions(s.wal, maxLsn, maxGeneration)
    ensures Max(s.meta.lastLsn, maxLsn) == |s.wal.log|
    ensures Max(s.meta.generation, maxGeneration) == Gen(s.wal.log)
  {
    if s.wal.log != [] {
      NewestIsRetained(s);
      assert InFiles(s.wal, s.wal.files, |s.wal.log|);
    }
    GenerationIsFound(s, maxLsn, maxGeneration);
    GenerationIsWritten(s, maxLsn, maxGeneration);
  }

  /** The newest marker's file is scanned, so the scan reaches the newest generation ... */
  lemma GenerationIsFound(s: State, maxLsn: nat, maxGeneration: nat)
    requires Durable(s) && Bounds(s.wal, s.wal.files, maxLsn, maxGeneration)
    ensures Gen(s.wal.log) <= maxGeneration
  {
    var log := s.wal.log;
    if Gen(log) > 0 {
      NewestIsRetained(s);
      hide Durable, Gen;
      var lsn: nat :| Retained(s.wal, lsn) && log[lsn - 1] == Rotate(lsn, Gen(log));
      assert InFiles(s.wal, s.wal.files, lsn);
    }
  }

  /** ... and what it reports was written or is a file's name. */
  lemma GenerationIsWritten(s: State, maxLsn: nat, maxGeneration: nat)
    requires Durable(s) && Mentions(s.wal, maxLsn, maxGeneration)
    ensures maxGeneration <= Gen(s.wal.log)
  {
    var log := s.wal.log;
    if maxGeneration > Gen(log) {
      var lsn: nat :| Retained(s.wal, lsn) && log[lsn - 1] == Rotate(lsn, maxGeneration);
      hide Gen, Generations, Ordered;
      MarkerIsPast(log, lsn - 1);
    }
  }

  /** The log after one more event keeps its shape. */
  lemma AppendKeepsLog(log: seq<Event>, e: Event)
    requires Ordered(log) && Generations(log) && e.lsn == |log| + 1
    requires e.generation == if e.Rotate? then Gen(log) + 1 else Gen(log)
    ensures Ordered(log + [e]) && Generations(log + [e])
    ensures Gen(log + [e]) == e.generation
    ensures forall i :: 0 <= i <= |log| ==> Gen((log + [e])[..i]) == Gen(log[..i])
  {
    assert (log + [e])[..|log|] == log && log[..|log|] == log;
    forall i | 0 <= i <= |log| ensures (log + [e])[..i] == log[..i] {}
  }

  lemma TombstoneKeepsLog(log: seq<Event>)
    requires Ordered(log) && Generations(log) && log != [] && log[|log| - 1].Entry?
    ensures var k := |log| - 1; var log' := log[..k] + [Tombstone(log[k].lsn, log[k].generation, log[k].item)];
      && Ordered(log') && Generations(log') && Gen(log') == Gen(log)
      && forall i :: 0 <= i < |log| ==> Gen(log'[..i]) == Gen(log[..i])
  {
    var k := |log| - 1;
    GenerationsPrefix(log, k);
    AppendKeepsLog(log[..k], Tombstone(log[k].lsn, log[k].generation, log[k].item));
    forall i | 0 <= i <= k ensures log[..k][..i] == log[..i] {}
  }

  /** One event appended to the current file, with its LSN and generation, keeps the disk in shape. */
  lemma AppendKeepsDurable(w: Wal, m: Meta, e: Event)
    requires LogShape(w) && FilesKept(w, m.lastBackupLsn) && MetaBehind(w.log, m)
    requires w.generation == Gen(w.log) && e.lsn == |w.log| + 1
    requires e.generation == if e.Rotate? then Gen(w.log) + 1 else Gen(w.log)
    requires !e.Rotate? ==> ValidItem(e.item)
    ensures var w' := Append(w, e);
      LogShape(w') && FilesKept(w', m.lastBackupLsn) && MetaBehind(w'.log, m) && Gen(w'.log) == e.generation
  {
    hide Gen, Generations, ValidItem;
    AppendKeepsLog(w.log, e);
    assert w.log[..|w.log|] == w.log;
  }

  lemma TombstoneKeepsDurable(w: Wal, m: Meta)
    requires LogShape(w) && FilesKept(w, m.lastBackupLsn) && MetaBehind(w.log, m)
    requires m.lastBackupLsn < |w.log| && w.log[|w.log| - 1].Entry?
    ensures var w' := AppendTombstone(w);
      LogShape(w') && FilesKept(w', m.lastBackupLsn) && MetaBehind(w'.log, m) && Gen(w'.log) == Gen(w.log)
  {
    hide Gen, Generations, ValidItem;
    TombstoneKeepsLog(w.log);
  }

  lemma UnlinkKeepsDurable(w: Wal, m: Meta, g: nat)
    requires LogShape(w) && FilesKept(w, m.lastBackupLsn) && m.lastBackupLsn == |w.log| && g + 1 < Gen(w.log)
    ensures FilesKept(Unlink(w, g), m.lastBackupLsn) && LogShape(Unlink(w, g))
  {
    hide Gen, Generations, ValidItem, FileMax;
  }

  lemma AppendStepKeepsInv(hash: Hash, s: State, a: Action)
    requires Inv(s) && Enabled(s, a) && (a.AppendEntry? || a.AppendMarker?)
    ensures Inv(Do(hash, s, a))
  {
    hide LogShape, FilesKept, MetaBehind, Gen, ValidItem;
    var e := if a.AppendEntry? then Entry(s.nextLsn, s.wal.generation, a.item)
             else Rotate(s.nextLsn, s.metaState.generation + 1);
    AppendKeepsDurable(s.wal, s.meta, e);
    FilesIgnoreMemory(Append(s.wal, e), Do(hash, s, a).wal, s.meta.lastBackupLsn);
  }

  /** The generation and the floor held in memory do not matter to what is on disk. */
  lemma FilesIgnoreMemory(w: Wal, w': Wal, backup: nat)
    requires LogShape(w) && FilesKept(w, backup) && w'.log == w.log && w'.home == w.home && w'.files == w.files
    ensures LogShape(w') && FilesKept(w', backup)
  {
  }

  lemma RefuseKeepsInv(hash: Hash, s: State)
    requires Inv(s) && Enabled(s, RefuseLocally)
    ensures Inv(Do(hash, s, RefuseLocally))
  {
    hide LogShape, FilesKept, MetaBehind, Gen;
    TombstoneKeepsDurable(s.wal, s.meta);
  }

  lemma UnlinkKeepsInv(hash: Hash, s: State, g: nat)
    requires Inv(s) && Enabled(s, UnlinkFile(g))
    ensures Inv(Do(hash, s, UnlinkFile(g)))
  {
    hide LogShape, FilesKept, MetaBehind, Gen;
    UnlinkKeepsDurable(s.wal, s.meta, g);
    var w := s.wal;
    assert forall i :: FileMax(w.home, g, |w.home|) <= i < |w.log| ==> w.home[i] != g;
  }

  lemma WriteMetaKeepsInv(hash: Hash, s: State)
    requires Inv(s) && Enabled(s, WriteMeta)
    ensures Inv(Do(hash, s, WriteMeta))
  {
    hide LogShape, Gen;
  }

  lemma BootKeepsInv(hash: Hash, s: State, maxLsn: nat, maxGeneration: nat)
    requires Inv(s) && Enabled(s, Boot(maxLsn, maxGeneration))
    ensures Inv(Do(hash, s, Boot(maxLsn, maxGeneration)))
  {
    BootResumes(s, maxLsn, maxGeneration);
    FilesIgnoreMemory(s.wal, Do(hash, s, Boot(maxLsn, maxGeneration)).wal, s.meta.lastBackupLsn);
  }

  lemma StepKeepsInv(hash: Hash, s: State, a: Action)
    requires Inv(s) && Enabled(s, a)
    ensures Inv(Do(hash, s, a))
  {
    hide LogShape, FilesKept, Gen;
    match a
    case AppendEntry(_) => AppendStepKeepsInv(hash, s, a);
    case AppendMarker => AppendStepKeepsInv(hash, s, a);
    case RefuseLocally => RefuseKeepsInv(hash, s);
    case UnlinkFile(g) => UnlinkKeepsInv(hash, s, g);
    case WriteMeta => WriteMetaKeepsInv(hash, s);
    case Boot(maxLsn, maxGeneration) => BootKeepsInv(hash, s, maxLsn, maxGeneration);
    case _ =>
  }

  lemma {:induction false} RunKeepsInv(hash: Hash, s: State, run: seq<Action>)
    requires Inv(s) && Runs(hash, s, run)
    ensures Inv(Final(hash, s, run))
    decreases |run|
  {
    if run != [] {
      StepKeepsInv(hash, s, run[0]);
      RunKeepsInv(hash, Do(hash, s, run[0]), run[1..]);
    }
  }

  /** Every state any coordinator can reach from an empty directory, crashes included. */
  lemma ReachableInv(hash: Hash, run: seq<Action>)
    requires Runs(hash, FRESH, run)
    ensures Inv(Final(hash, FRESH, run))
  {
    RunKeepsInv(hash, FRESH, run);
  }

  // ---- LSN and generation resumption ----

  /** Later logs keep every event; only the newest entry may since have become a tombstone. */
  predicate Extends(log: seq<Event>, log': seq<Event>) {
    && |log| <= |log'|
    && forall i :: 0 <= i < |log| ==>
      || log'[i] == log[i]
      || (i == |log| - 1 && log[i].Entry? && log'[i] == Tombstone(log[i].lsn, log[i].generation, log[i].item))
  }

  /** Through every crash, restart and retention the durable history and the generation only grow. */
  lemma {:induction false} HistoryOnlyGrows(hash: Hash, s: State, run: seq<Action>)
    requires Inv(s) && Runs(hash, s, run)
    ensures Extends(s.wal.log, Final(hash, s, run).wal.log)
    ensures Gen(s.wal.log) <= Gen(Final(hash, s, run).wal.log)
    decreases |run|
  {
    if run != [] {
      var s' := Do(hash, s, run[0]);
      StepKeepsInv(hash, s, run[0]);
      HistoryOnlyGrows(hash, s', run[1..]);
      StepExtends(hash, s, run[0]);
    }
  }

  lemma StepExtends(hash: Hash, s: State, a: Action)
    requires Inv(s) && Enabled(s, a)
    ensures var log' := Do(hash, s, a).wal.log;
      Extends(s.wal.log, log') && Gen(s.wal.log) <= Gen(log')
  {
    hide FilesKept, MetaBehind, ValidItem, Gen, Generations, Ordered, Extends;
    var log := s.wal.log;
    match a
    case AppendEntry(_) => AppendExtends(log, Entry(s.nextLsn, s.wal.generation, a.item));
    case AppendMarker => AppendExtends(log, Rotate(s.nextLsn, s.metaState.generation + 1));
    case RefuseLocally => TombstoneExtends(log);
    case _ => ExtendsItself(log);
  }

  lemma AppendExtends(log: seq<Event>, e: Event)
    requires Ordered(log) && Generations(log) && e.lsn == |log| + 1
    requires e.generation == if e.Rotate? then Gen(log) + 1 else Gen(log)
    ensures Extends(log, log + [e]) && Gen(log) <= Gen(log + [e])
  {
    AppendKeepsLog(log, e);
    hide Gen, Generations, Ordered;
  }

  lemma TombstoneExtends(log: seq<Event>)
    requires Ordered(log) && Generations(log) && log != [] && log[|log| - 1].Entry?
    ensures var k := |log| - 1; var log' := log[..k] + [Tombstone(log[k].lsn, log[k].generation, log[k].item)];
      Extends(log, log') && Gen(log) <= Gen(log')
  {
    TombstoneKeepsLog(log);
    hide Gen, Generations, Ordered;
  }

  lemma ExtendsItself(log: seq<Event>)
    ensures Extends(log, log)
  {
  }

  /** The next LSN is above every LSN ever written, deleted files included, and the generation is current. */
  lemma NextLsnIsFresh(hash: Hash, run: seq<Action>)
    requires Runs(hash, FRESH, run) && !Final(hash, FRESH, run).phase.Down?
    ensures var s := Final(hash, FRESH, run);
      && s.nextLsn == |s.wal.log| + 1
      && s.wal.generation == Gen(s.wal.log)
      && forall i :: 0 <= i < |s.wal.log| ==>
        s.wal.log[i].lsn < s.nextLsn && s.wal.log[i].generation <= s.wal.generation
  {
    ReachableInv(hash, run);
    var s := Final(hash, FRESH, run);
    forall i | 0 <= i < |s.wal.log| ensures s.wal.log[i].generation <= s.wal.generation {
      GenMonotone(s.wal.log, i + 1);
      assert s.wal.log[..i + 1][..i] == s.wal.log[..i];
      GenMonotone(s.wal.log, i);
    }
  }

  // ---- Retention soundness ----

  /** In every state of a running coordinator a servable cursor reads the complete tail. */
  lemma ReachableReadIsComplete(hash: Hash, run: seq<Action>, from: nat)
    requires Runs(hash, FRESH, run) && !Final(hash, FRESH, run).phase.Down?
    requires from <= |Final(hash, FRESH, run).wal.log| && CanServeFrom(Final(hash, FRESH, run).wal, from)
    ensures var w := Final(hash, FRESH, run).wal; |w.home| == |w.log| && ReadSince(w, from, 0) == w.log[from..]
  {
    ReachableInv(hash, run);
    RunningIsWellFormed(Final(hash, FRESH, run));
    ServableReadIsComplete(Final(hash, FRESH, run).wal, from);
  }

  lemma RunningIsWellFormed(s: State)
    requires Inv(s) && !s.phase.Down?
    ensures WellFormed(s.wal)
  {
    var log := s.wal.log;
    forall i | 0 <= i < |log| ensures s.wal.home[i] <= s.wal.generation {
      GenMonotone(log, i);
    }
  }

  /** The snapshot's consistency point is always servable. */
  lemma ConsistencyPointIsServable(hash: Hash, run: seq<Action>)
    requires Runs(hash, FRESH, run) && !Final(hash, FRESH, run).phase.Down?
    ensures var s := Final(hash, FRESH, run);
      CanServeFrom(s.wal, s.metaState.lastBackupLsn) && s.metaState.lastBackupLsn <= |s.wal.log|
  {
    ReachableInv(hash, run);
  }

  /** A rotation of the canonical log: marker, then some of the files retention may delete; an unlink may fail. */
  ghost predicate Rotated(w: Wal, w': Wal, deleted: seq<nat>)
    requires |w.home| == |w.log|
  {
    var marked := AppendRotate(w, w.generation + 1);
    && w' == UnlinkAll(marked, deleted)
    && forall g <- deleted :: Deletable(marked, w.generation, |marked.log|, g)
  }

  /** No unlink failed. */
  ghost predicate EveryFileDeleted(w: Wal, deleted: seq<nat>)
    requires |w.home| == |w.log|
  {
    var marked := AppendRotate(w, w.generation + 1);
    forall g :: Deletable(marked, w.generation, |marked.log|, g) ==> g in deleted
  }

  /** With no marker above `point`, every event above it lives in the current file. */
  lemma TailIsCurrent(w: Wal, point: nat, i: nat)
    requires LogShape(w) && w.generation == Gen(w.log) && point <= i < |w.log| && NoRotate(w.log[point..])
    ensures w.home[i] == w.generation
  {
    GenMonotone(w.log, point);
    GenMonotone(w.log, i);
    GenerationsPrefix(w.log, i);
    GenMonotone(w.log[..i], point);
    assert w.log[..i][..point] == w.log[..point];
  }

  /** A marker lives in a file older than the current one. */
  lemma MarkerIsOld(w: Wal, i: nat)
    requires LogShape(w) && w.generation == Gen(w.log) && i < |w.log| && w.log[i].Rotate?
    ensures w.home[i] < w.generation
  {
    GenMonotone(w.log, i);
    assert w.log[i..][0].Rotate?;
  }

  /** After a rotation the floor is at most `point` exactly when no deleted file holds an event above it. */
  lemma FloorAfterRotation(w: Wal, w': Wal, deleted: seq<nat>, point: nat)
    requires |w.home| == |w.log| && Rotated(w, w', deleted) && w.deletedMax <= point <= |w.log|
    ensures CanServeFrom(w', point) <==> forall i :: point <= i < |w.log| ==> w.home[i] !in deleted
  {
    hide UnlinkAll, FileMax, Rotated, AppendRotate, Deletable;
    RotatedFrame(w, w', deleted);
    UnlinkAllFloor(AppendRotate(w, w.generation + 1), deleted, point);
    FileMaxOfAll(w.home, w.generation, deleted, point);
  }

  lemma RotatedFrame(w: Wal, w': Wal, deleted: seq<nat>)
    requires |w.home| == |w.log| && Rotated(w, w', deleted)
    ensures var marked := AppendRotate(w, w.generation + 1);
      && marked.home == w.home + [w.generation] && |marked.log| == |w.log| + 1 && marked.deletedMax == w.deletedMax
      && w' == UnlinkAll(marked, deleted)
    ensures forall g <- deleted :: g != w.generation
  {
    hide UnlinkAll, FileMax;
  }

  /** The newest event lies in a file that is not deleted, so only older ones matter. */
  lemma FileMaxOfAll(home: seq<nat>, last: nat, deleted: seq<nat>, point: nat)
    requires point <= |home| && forall g <- deleted :: g != last
    ensures (forall j :: 0 <= j < |deleted| ==> FileMax(home + [last], deleted[j], |home| + 1) <= point)
      <==> forall i :: point <= i < |home| ==> home[i] !in deleted
  {
    hide FileMax;
    forall j | 0 <= j < |deleted|
      ensures FileMax(home + [last], deleted[j], |home| + 1) <= point
        <==> forall i :: point <= i < |home| ==> home[i] != deleted[j]
    {
      FileMaxAbove(home + [last], deleted[j], point);
      assert deleted[j] in deleted && forall i :: 0 <= i < |home| ==> (home + [last])[i] == home[i];
    }
  }

  /** A marker above the point lies in a file retention may delete. */
  lemma MarkerIsDeletable(w: Wal, point: nat) returns (i: nat)
    requires LogShape(w) && w.generation == Gen(w.log) && point <= |w.log| && !NoRotate(w.log[point..])
    requires forall k :: point <= k < |w.log| ==> w.home[k] in w.files
    ensures point <= i < |w.log|
    ensures var marked := AppendRotate(w, w.generation + 1); Deletable(marked, w.generation, |marked.log|, w.home[i])
  {
    i :| point <= i < |w.log| && w.log[i].Rotate?;
    MarkerIsOld(w, i);
  }

  /**
   * A consistency point read before a rotation is still servable after it exactly when no deleted
   * file holds an event above it - whatever unlinks fail, whenever no rotation marker lies above
   * it, and only then if none fails. One does after a crash between marker and meta file.
   */
  lemma PointSurvivesRotation(s: State, w': Wal, deleted: seq<nat>)
    requires Inv(s) && s.phase.Idle? && Rotated(s.wal, w', deleted)
    ensures var point := s.metaState.lastBackupLsn;
      && (CanServeFrom(w', point) <==> forall i :: point <= i < |s.wal.log| ==> s.wal.home[i] !in deleted)
      && (NoRotate(s.wal.log[point..]) ==> CanServeFrom(w', point))
      && (EveryFileDeleted(s.wal, deleted) ==> (CanServeFrom(w', point) <==> NoRotate(s.wal.log[point..])))
  {
    var w, point := s.wal, s.metaState.lastBackupLsn;
    FloorAfterRotation(w, w', deleted, point);
    hide Gen, UnlinkAll, FileMax, CanServeFrom, NoRotate, LogShape, FilesKept, MetaBehind;
    if NoRotate(w.log[point..]) {
      forall i | point <= i < |w.log| ensures w.home[i] !in deleted {
        TailIsCurrent(w, point, i);
      }
    } else if EveryFileDeleted(w, deleted) {
      var i := MarkerIsDeletable(w, point);
    }
  }

  /** After unlinking, the floor is at most `point` exactly when every deleted file was. */
  lemma {:induction false} UnlinkAllFloor(w: Wal, gs: seq<nat>, point: nat)
    requires |w.home| == |w.log|
    ensures UnlinkAll(w, gs).deletedMax <= point
      <==> w.deletedMax <= point && forall j :: 0 <= j < |gs| ==> FileMax(w.home, gs[j], |w.home|) <= point
  {
    if gs != [] {
      UnlinkAllFloor(w, gs[..|gs| - 1], point);
    }
  }

  /**
   * The crash that leaves a marker above the consistency point: after the restart the coordinator
   * is idle, and the next rotation takes its consistency point out of reach.
   */
  lemma MarkerWithoutMeta(hash: Hash) returns (run: seq<Action>)
    ensures Runs(hash, FRESH, run) && Final(hash, FRESH, run).phase.Idle?
    ensures var s := Final(hash, FRESH, run);
      && s.metaState.lastBackupLsn < |s.wal.log|
      && !NoRotate(s.wal.log[s.metaState.lastBackupLsn..])
  {
    hide Runs, Final;
    var s;
    run, s := Start(hash);
    run, s := Take(hash, run, s, Boot(0, 0));
    run, s := Take(hash, run, s, FinishBoot);
    assert s == State(Wal([], [], {}, 0, 0), Meta(0, 0, 0), CoreDisk(None, None, []),
                      1, Meta(0, 0, 0), EMPTY, Idle, REPLAY_BATCH_LIMIT, 0, 0);
    run, s := Promotes(hash, run, s);
    run, s := Take(hash, run, s, AppendMarker);
    run, s := Take(hash, run, s, Crash);
    run, s := Reboots(hash, run, s);
  }

  lemma Boots(hash: Hash, run: seq<Action>, s: State) returns (run': seq<Action>, s': State)
    requires Runs(hash, FRESH, run) && s == Final(hash, FRESH, run) && s.phase.Down?
    requires s.wal.log == [Rotate(1, 1)] && s.wal.home == [0] && s.wal.files == {0} && s.meta == Meta(0, 0, 0)
    ensures Runs(hash, FRESH, run') && s' == Final(hash, FRESH, run')
    ensures s'.phase == Replaying([Rotate(1, 1)]) && s'.wal.log == [Rotate(1, 1)] && |s'.wal.home| == 1
    ensures s'.metaState.lastBackupLsn == 0
  {
    hide Runs, Final;
    assert InFiles(s.wal, s.wal.files, 1) && Retained(s.wal, 1);
    run', s' := Take(hash, run, s, Boot(1, 1));
    assert Between(s'.wal, 0, 1) == [Rotate(1, 1)];
  }

  lemma Reboots(hash: Hash, run: seq<Action>, s: State) returns (run': seq<Action>, s': State)
    requires Runs(hash, FRESH, run) && s == Final(hash, FRESH, run) && s.phase.Down?
    requires s.wal.log == [Rotate(1, 1)] && s.wal.home == [0] && s.wal.files == {0} && s.meta == Meta(0, 0, 0)
    ensures Runs(hash, FRESH, run') && s' == Final(hash, FRESH, run') && s'.phase.Idle?
    ensures s'.metaState.lastBackupLsn < |s'.wal.log| && !NoRotate(s'.wal.log[s'.metaState.lastBackupLsn..])
  {
    hide Runs, Final, Bounds, Mentions, Between, Restore;
    run', s' := Boots(hash, run, s);
    run', s' := Take(hash, run', s', ReplayEvent);
    run', s' := Take(hash, run', s', FinishBoot);
    assert s'.wal.log[0..][0].Rotate?;
  }

  lemma Start(hash: Hash) returns (run: seq<Action>, s: State)
    ensures run == [] && s == FRESH && Runs(hash, FRESH, run) && s == Final(hash, FRESH, run)
  {
    run, s := [], FRESH;
  }

  /** The first half of a rotation: blob written, write-ahead file cleared, blob promoted. */
  lemma Promotes(hash: Hash, run: seq<Action>, s: State) returns (run': seq<Action>, s': State)
    requires Runs(hash, FRESH, run) && s == Final(hash, FRESH, run) && s.phase.Idle?
    requires |s.wal.home| == |s.wal.log|
    ensures Runs(hash, FRESH, run') && s' == Final(hash, FRESH, run')
    ensures run' == run + [RotateWriteBlob, RotateClearTemp, Promote]
    ensures s' == s.(core := CoreDisk(None, Some(s.pair.current), []), pair := Shift(s.pair), phase := Promoted,
                     blobAt := |s.wal.log|)
  {
    hide Runs, Final;
    run', s' := Take(hash, run, s, RotateWriteBlob);
    run', s' := Take(hash, run', s', RotateClearTemp);
    run', s' := Take(hash, run', s', Promote);
  }

  lemma Take(hash: Hash, run: seq<Action>, s: State, a: Action) returns (run': seq<Action>, s': State)
    requires Runs(hash, FRESH, run) && s == Final(hash, FRESH, run) && Enabled(s, a)
    ensures run' == run + [a] && Runs(hash, FRESH, run') && s' == Do(hash, s, a) && s' == Final(hash, FRESH, run')
  {
    RunAppend(hash, FRESH, run, a);
    run', s' := run + [a], Do(hash, s, a);
  }

  /** A snapshot names the generation of its consistency point exactly when no marker lies above it. */
  lemma SnapshotGeneration(s: State)
    requires Inv(s) && !s.phase.Down? && !s.phase.Replaying? && !s.phase.Marked?
    ensures var point := s.metaState.lastBackupLsn;
      s.metaState.generation == Gen(s.wal.log[..point]) <==> NoRotate(s.wal.log[point..])
  {
    GenMonotone(s.wal.log, s.metaState.lastBackupLsn);
  }

  // ---- Restart coverage ----

  /** Where the startup replay stops: the end of the log, or its batch limit. */
  function ReplayEnd(s: State): nat {
    if s.cutFrom <= s.cutTo then s.cutFrom else s.cutTo
  }

  /** The filters must reflect the log up to here: not the entry being added, not the tail to replay. */
  function AppliedUpTo(s: State): int {
    match s.phase
    case Adding => |s.wal.log| - 1
    case Replaying(tail) => ReplayEnd(s) - |tail|
    case _ => |s.wal.log|
  }

  /** The filter an entry above the consistency point must be in. */
  function WindowBits(s: State): Bits {
    if s.phase.Promoted? || s.phase.Marked? then s.pair.previous else s.pair.current
  }

  predicate Cut(s: State, i: nat) {
    s.cutFrom <= i < s.cutTo
  }

  ghost predicate ReplayShape(s: State) {
    s.phase.Replaying? ==>
      && s.cutTo == |s.wal.log|
      && s.metaState.lastBackupLsn + |s.phase.tail| <= ReplayEnd(s)
      && s.phase.tail == s.wal.log[ReplayEnd(s) - |s.phase.tail|..ReplayEnd(s)]
  }

  ghost predicate Covered(hash: Hash, s: State) {
    forall i: nat :: s.metaState.lastBackupLsn <= i < |s.wal.log| && i < AppliedUpTo(s) && !Cut(s, i) ==>
      (s.wal.log[i].Entry? ==> hash(s.wal.log[i].item) <= WindowBits(s))
  }

  /** Startup replays the log from the consistency point, up to the batch limit. */
  lemma BootTail(hash: Hash, s: State, maxLsn: nat, maxGeneration: nat)
    requires Inv(s) && Enabled(s, Boot(maxLsn, maxGeneration))
    ensures var s' := Do(hash, s, Boot(maxLsn, maxGeneration)); var b, log := s.meta.lastBackupLsn, s.wal.log;
      && b <= |log| && s'.wal.log == log && s'.metaState.lastBackupLsn == b
      && s'.phase == Replaying(log[b..if b + REPLAY_BATCH_LIMIT < |log| then b + REPLAY_BATCH_LIMIT else |log|])
      && s'.cutFrom == b + REPLAY_BATCH_LIMIT && s'.cutTo == |log|
  {
    var s' := Do(hash, s, Boot(maxLsn, maxGeneration));
    BootKeepsInv(hash, s, maxLsn, maxGeneration);
    RunningIsWellFormed(s');
    hide ReadSince, WellFormed, Durable, Bounds, Mentions;
    ServablePage(s'.wal, s.meta.lastBackupLsn, REPLAY_BATCH_LIMIT);
  }

  lemma BootKeepsCovered(hash: Hash, s: State, maxLsn: nat, maxGeneration: nat)
    requires Inv(s) && Enabled(s, Boot(maxLsn, maxGeneration))
    ensures var s' := Do(hash, s, Boot(maxLsn, maxGeneration)); ReplayShape(s') && Covered(hash, s')
  {
    hide Inv, Do, Enabled;
    BootTail(hash, s, maxLsn, maxGeneration);
  }

  lemma ReplayKeepsCovered(hash: Hash, s: State)
    requires Inv(s) && ReplayShape(s) && Covered(hash, s) && Enabled(s, ReplayEvent)
    ensures var s' := Do(hash, s, ReplayEvent); ReplayShape(s') && Covered(hash, s')
  {
    hide LogShape, FilesKept, MetaBehind, ItemBits;
    var at := ReplayEnd(s) - |s.phase.tail|;
    assert s.phase.tail[0] == s.wal.log[at];
    assert s.phase.tail[1..] == s.wal.log[at + 1..ReplayEnd(s)];
  }

  lemma StepKeepsCovered(hash: Hash, s: State, a: Action)
    requires Inv(s) && Enabled(s, a)
    requires !s.phase.Down? ==> ReplayShape(s) && Covered(hash, s)
    ensures var s' := Do(hash, s, a); !s'.phase.Down? ==> ReplayShape(s') && Covered(hash, s')
  {
    hide LogShape, FilesKept, MetaBehind, ItemBits, Gen, Restore, ReadSince, ValidItem, Unlink;
    match a
    case Boot(maxLsn, maxGeneration) => BootKeepsCovered(hash, s, maxLsn, maxGeneration);
    case ReplayEvent => ReplayKeepsCovered(hash, s);
    case UnlinkFile(g) => assert Unlink(s.wal, g).log == s.wal.log by { UnlinkLog(s.wal, g); }
    case _ =>
  }

  lemma UnlinkLog(w: Wal, g: nat)
    requires |w.home| == |w.log|
    ensures Unlink(w, g).log == w.log
  {
  }

  lemma {:induction false} RunKeepsCovered(hash: Hash, s: State, run: seq<Action>)
    requires Inv(s) && Runs(hash, s, run)
    requires !s.phase.Down? ==> ReplayShape(s) && Covered(hash, s)
    ensures var s' := Final(hash, s, run); !s'.phase.Down? ==> ReplayShape(s') && Covered(hash, s')
    decreases |run|
  {
    if run != [] {
      StepKeepsInv(hash, s, run[0]);
      StepKeepsCovered(hash, s, run[0]);
      RunKeepsCovered(hash, Do(hash, s, run[0]), run[1..]);
    }
  }

  /**
   * Restart coverage: whenever the coordinator is up and idle, after whatever crashes and even
   * if core lost its current blob and write-ahead file, every entry above the consistency point
   * that was not tombstoned is found - save those a startup replay cut off at its batch limit.
   */
  lemma EntriesSurviveRestart(hash: Hash, run: seq<Action>, i: nat)
    requires Runs(hash, FRESH, run) && Final(hash, FRESH, run).phase.Idle?
    requires var s := Final(hash, FRESH, run);
      s.metaState.lastBackupLsn <= i < |s.wal.log| && s.wal.log[i].Entry? && !Cut(s, i)
    ensures var s := Final(hash, FRESH, run); Has(hash, s.pair, s.wal.log[i].item)
  {
    ReachableInv(hash, run);
    RunKeepsCovered(hash, FRESH, run);
  }

  /** A startup replay leaves something out only when the tail exceeds the batch limit. */
  lemma NothingIsCutBelowTheLimit(hash: Hash, s: State, maxLsn: nat, maxGeneration: nat)
    requires Inv(s) && Enabled(s, Boot(maxLsn, maxGeneration))
    ensures var s' := Do(hash, s, Boot(maxLsn, maxGeneration));
      (exists i :: Cut(s', i)) <==> |s'.wal.log| - s'.metaState.lastBackupLsn > 1_000_000
  {
    var s' := Do(hash, s, Boot(maxLsn, maxGeneration));
    if |s'.wal.log| - s'.metaState.lastBackupLsn > REPLAY_BATCH_LIMIT {
      assert Cut(s', s'.cutFrom);
    }
  }
}
