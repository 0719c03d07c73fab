// A node that installs a coordinator snapshot and applies the canonical tail ends up with
// the coordinator's filters. Crash-free coordinator runs, snapshots at every await point.
module Convergence {
  import opened Texts
  import opened WalSpec
  import opened Filters
  import opened CoreDisk
  import opened Coordinator

  predicate CrashFree(run: seq<Action>) {
    forall i :: 0 <= i < |run| ==> !run[i].Crash? && !run[i].LoseCoreFiles?
  }

  /** The phases in which the event loop can serve a GetSnapshot call. */
  predicate AtAwait(s: State) {
    || s.phase.Idle?
    || s.phase.BlobWritten?
    || s.phase.RotationBlobWritten? || s.phase.RotationCleared? || s.phase.Promoted?
  }

  /** The filters a snapshot carries: the two blobs, a missing one standing for an empty filter. */
  function SnapshotPair(s: State): Pair {
    Pair(OrEmpty(s.core.current), OrEmpty(s.core.previous))
  }

  /** A node's filters after installing snapshot `p` taken at `point` and applying the log up to n. */
  function NodePair(hash: Hash, p: Pair, log: seq<Event>, point: nat, n: nat): Pair
    requires point <= n <= |log|
  {
    Replicated(hash, p, log[point..n])
  }

  /** The coordinator's filters after event n. */
  function CoordinatorPair(hash: Hash, log: seq<Event>, n: nat): Pair
    requires n <= |log|
  {
    Exact(hash, EMPTY, log[..n])
  }

  /** Where the events since the consistency point end: a marker just appended does not count. */
  function WindowEnd(s: State): nat {
    if s.phase.Marked? then Before(|s.wal.log|) else |s.wal.log|
  }

  /** The part of the log that memory reflects, an entry being added not included. */
  function Applied(s: State): seq<Event> {
    if s.phase.Adding? && s.wal.log != [] then s.wal.log[..|s.wal.log| - 1] else s.wal.log
  }

  /** No marker lies above the consistency point. */
  ghost predicate OneWindow(s: State) {
    s.meta.lastBackupLsn <= WindowEnd(s) <= |s.wal.log| && NoRotate(s.wal.log[s.meta.lastBackupLsn..WindowEnd(s)])
  }

  /** Memory is exactly what the log says. */
  ghost predicate MemoryIsExact(hash: Hash, s: State) {
    s.pair == if s.phase.Promoted? then Shift(Exact(hash, EMPTY, s.wal.log)) else Exact(hash, EMPTY, Applied(s))
  }

  /** The blobs hold the previous filter and part of the current one. */
  ghost predicate BlobsBehind(s: State) {
    && OrEmpty(s.core.previous) == s.pair.previous
    && OrEmpty(s.core.current) <= s.pair.current
    && (s.phase.RotationBlobWritten? || s.phase.RotationCleared? ==> s.core.current == Some(s.pair.current))
    && (s.phase.Promoted? || s.phase.Marked? ==> s.core.current == None)
  }

  /** The current blob is the coordinator's current filter as of the event it was last written at. */
  ghost predicate BlobPosition(hash: Hash, s: State) {
    && s.meta.lastBackupLsn <= s.blobAt <= |Applied(s)| && |Applied(s)| <= |s.wal.log|
    && (s.phase.Marked? ==> s.blobAt == |s.wal.log|)
    && (!s.phase.Promoted? ==> OrEmpty(s.core.current) == Exact(hash, EMPTY, s.wal.log[..s.blobAt]).current)
  }

  /** Without crashes memory, blobs and log tell one story. */
  ghost predicate InStep(hash: Hash, s: State) {
    && Inv(s)
    && (s.phase.Down? ==> s == FRESH)
    && (s.phase.Replaying? ==> s.wal.log == [] && s.phase.tail == [])
    && (!s.phase.Down? ==> OneWindow(s) && MemoryIsExact(hash, s) && BlobsBehind(s) && BlobPosition(hash, s))
  }

  /** What a step does to the log. */
  lemma LogSteps(hash: Hash, s: State, a: Action)
    requires Inv(s) && Enabled(s, a) && !s.phase.Down?
    ensures var log, log' := s.wal.log, Do(hash, s, a).wal.log;
      match a
      case AppendEntry(item) => log' == log + [Entry(|log| + 1, Gen(log), item)]
      case AppendMarker => log' == log + [Rotate(|log| + 1, Gen(log) + 1)]
      case RefuseLocally => log != [] && log[|log| - 1].Entry?
        && log' == log[..|log| - 1] + [Tombstone(log[|log| - 1].lsn, log[|log| - 1].generation, log[|log| - 1].item)]
      case _ => log' == log
  {
    hide LogShape, FilesKept, MetaBehind, Gen, ValidItem, ItemBits;
  }

  lemma EntryKeepsWindow(hash: Hash, s: State, item: Text)
    requires Inv(s) && Enabled(s, AppendEntry(item)) && OneWindow(s)
    ensures OneWindow(Do(hash, s, AppendEntry(item)))
  {
    LogSteps(hash, s, AppendEntry(item));
    hide Inv, Gen, ValidItem, Append;
    var log, log', b := s.wal.log, Do(hash, s, AppendEntry(item)).wal.log, s.meta.lastBackupLsn;
    assert log'[b..|log'|] == log[b..|log|] + [log'[|log|]];
    NoRotateAppend(log[b..|log|], log'[|log|]);
  }

  lemma MarkerKeepsWindow(hash: Hash, s: State)
    requires Inv(s) && Enabled(s, AppendMarker) && OneWindow(s)
    ensures OneWindow(Do(hash, s, AppendMarker))
  {
    LogSteps(hash, s, AppendMarker);
    hide Inv, Gen, ValidItem, Append;
    var log, log', b := s.wal.log, Do(hash, s, AppendMarker).wal.log, s.meta.lastBackupLsn;
    assert log'[b..|log|] == log[b..|log|];
  }

  lemma RefusalKeepsWindow(hash: Hash, s: State)
    requires Inv(s) && Enabled(s, RefuseLocally) && OneWindow(s)
    ensures OneWindow(Do(hash, s, RefuseLocally))
  {
    RefusalFrame(hash, s);
    hide Inv, Enabled, Do, Gen, ValidItem, AppendTombstone, NoRotate;
    LogSteps(hash, s, RefuseLocally);
    NoRotateReplace(s.wal.log, Do(hash, s, RefuseLocally).wal.log, s.meta.lastBackupLsn);
  }

  lemma RefusalFrame(hash: Hash, s: State)
    requires Inv(s) && Enabled(s, RefuseLocally)
    ensures var s' := Do(hash, s, RefuseLocally);
      s.phase.Adding? && s'.phase.Idle? && s'.meta == s.meta && s.meta.lastBackupLsn < |s.wal.log|
  {
    hide LogShape, FilesKept, Gen, ValidItem, AppendTombstone;
  }

  lemma NoRotateReplace(log: seq<Event>, log': seq<Event>, b: nat)
    requires b < |log| == |log'| && log'[..|log| - 1] == log[..|log| - 1] && !log'[|log| - 1].Rotate?
    requires NoRotate(log[b..|log|])
    ensures NoRotate(log'[b..|log'|])
  {
    forall j | 0 <= j < |log| - b ensures !log'[b..|log'|][j].Rotate? {
      if j < |log| - b - 1 {
        assert log'[b + j] == log'[..|log| - 1][b + j];
        assert !log[b..|log|][j].Rotate?;
      }
    }
  }

  lemma OtherStepsKeepWindow(hash: Hash, s: State, a: Action)
    requires Inv(s) && Enabled(s, a) && !s.phase.Down? && OneWindow(s)
    requires !a.AppendEntry? && !a.AppendMarker? && !a.RefuseLocally?
    ensures !Do(hash, s, a).phase.Down? ==> OneWindow(Do(hash, s, a))
  {
    hide LogShape, FilesKept, MetaBehind, Gen, ValidItem, ItemBits, Deletable, Bounds, Mentions;
  }

  lemma StepKeepsWindow(hash: Hash, s: State, a: Action)
    requires Inv(s) && Enabled(s, a) && !s.phase.Down? && OneWindow(s)
    ensures !Do(hash, s, a).phase.Down? ==> OneWindow(Do(hash, s, a))
  {
    hide Inv, Enabled, Do, OneWindow;
    match a
    case AppendEntry(item) => EntryKeepsWindow(hash, s, item);
    case AppendMarker => MarkerKeepsWindow(hash, s);
    case RefuseLocally => RefusalKeepsWindow(hash, s);
    case _ => OtherStepsKeepWindow(hash, s, a);
  }

  lemma EntryKeepsMemory(hash: Hash, s: State, item: Text)
    requires Inv(s) && Enabled(s, AppendEntry(item)) && MemoryIsExact(hash, s)
    ensures MemoryIsExact(hash, Do(hash, s, AppendEntry(item)))
  {
    LogSteps(hash, s, AppendEntry(item));
    hide Inv, Gen, Exact, Append;
    assert Do(hash, s, AppendEntry(item)).wal.log[..|s.wal.log|] == s.wal.log;
  }

  lemma LocalApplyKeepsMemory(hash: Hash, s: State)
    requires Enabled(s, ApplyLocally) && MemoryIsExact(hash, s)
    ensures MemoryIsExact(hash, Do(hash, s, ApplyLocally))
  {
    hide Exact;
    var log := s.wal.log;
    assert log == log[..|log| - 1] + [log[|log| - 1]];
    ExactAppend(hash, EMPTY, log[..|log| - 1], log[|log| - 1]);
  }

  lemma RefusalKeepsMemory(hash: Hash, s: State)
    requires Inv(s) && Enabled(s, RefuseLocally) && MemoryIsExact(hash, s)
    ensures MemoryIsExact(hash, Do(hash, s, RefuseLocally))
  {
    LogSteps(hash, s, RefuseLocally);
    hide Inv, Gen, Exact, AppendTombstone;
    var log := s.wal.log;
    ExactAppend(hash, EMPTY, log[..|log| - 1], Do(hash, s, RefuseLocally).wal.log[|log| - 1]);
  }

  lemma MarkerKeepsMemory(hash: Hash, s: State)
    requires Inv(s) && Enabled(s, AppendMarker) && MemoryIsExact(hash, s)
    ensures MemoryIsExact(hash, Do(hash, s, AppendMarker))
  {
    LogSteps(hash, s, AppendMarker);
    hide Inv, Gen, Exact, Append;
    ExactAppend(hash, EMPTY, s.wal.log, Do(hash, s, AppendMarker).wal.log[|s.wal.log|]);
  }

  lemma OtherStepsKeepMemory(hash: Hash, s: State, a: Action)
    requires Enabled(s, a) && !s.phase.Down? && MemoryIsExact(hash, s)
    requires s.phase.Replaying? ==> s.phase.tail == []
    requires !a.AppendEntry? && !a.ApplyLocally? && !a.RefuseLocally? && !a.AppendMarker?
    ensures !Do(hash, s, a).phase.Down? ==> MemoryIsExact(hash, Do(hash, s, a))
  {
    hide Exact, ItemBits, Deletable, Bounds, Mentions;
  }

  lemma StepKeepsMemory(hash: Hash, s: State, a: Action)
    requires Inv(s) && Enabled(s, a) && !s.phase.Down? && MemoryIsExact(hash, s)
    requires s.phase.Replaying? ==> s.phase.tail == []
    ensures !Do(hash, s, a).phase.Down? ==> MemoryIsExact(hash, Do(hash, s, a))
  {
    hide Inv, Enabled, Do, MemoryIsExact;
    match a
    case AppendEntry(item) => EntryKeepsMemory(hash, s, item);
    case ApplyLocally => LocalApplyKeepsMemory(hash, s);
    case RefuseLocally => RefusalKeepsMemory(hash, s);
    case AppendMarker => MarkerKeepsMemory(hash, s);
    case _ => OtherStepsKeepMemory(hash, s, a);
  }

  lemma StepKeepsBlobs(hash: Hash, s: State, a: Action)
    requires Enabled(s, a) && !s.phase.Down? && BlobsBehind(s)
    requires s.phase.Replaying? ==> s.phase.tail == []
    ensures !Do(hash, s, a).phase.Down? ==> BlobsBehind(Do(hash, s, a))
  {
    hide Append, Unlink, AppendTombstone, Deletable, Bounds, Mentions;
  }

  /** Steps that write a blob, or put a marker in place of one. */
  lemma BlobStepKeepsPosition(hash: Hash, s: State, a: Action)
    requires Inv(s) && Enabled(s, a) && MemoryIsExact(hash, s) && BlobPosition(hash, s)
    requires a.WriteBlob? || a.RotateWriteBlob? || a.AppendMarker?
    requires a.AppendMarker? ==> s.core.current == None
    ensures BlobPosition(hash, Do(hash, s, a))
  {
    hide LogShape, FilesKept, MetaBehind, Exact;
    var log := s.wal.log;
    assert log[..|log|] == log;
    if a.AppendMarker? {
      var e := Rotate(s.nextLsn, s.metaState.generation + 1);
      ExactAppend(hash, EMPTY, log, e);
      assert (log + [e])[..|log| + 1] == log + [e];
    }
  }

  lemma LogStepKeepsPosition(hash: Hash, s: State, a: Action)
    requires Inv(s) && Enabled(s, a) && BlobPosition(hash, s)
    requires a.AppendEntry? || a.ApplyLocally? || a.RefuseLocally?
    ensures BlobPosition(hash, Do(hash, s, a))
  {
    LogSteps(hash, s, a);
    hide Inv, Gen, Exact, Append, AppendTombstone;
    var log' := Do(hash, s, a).wal.log;
    assert log'[..s.blobAt] == s.wal.log[..s.blobAt];
  }

  lemma QuietStepKeepsPosition(hash: Hash, s: State, a: Action)
    requires Inv(s) && Enabled(s, a) && !s.phase.Down? && BlobPosition(hash, s)
    requires s.phase.Replaying? ==> s.phase.tail == []
    requires !a.AppendEntry? && !a.ApplyLocally? && !a.RefuseLocally?
    requires !a.WriteBlob? && !a.RotateWriteBlob? && !a.AppendMarker?
    ensures !Do(hash, s, a).phase.Down? ==> BlobPosition(hash, Do(hash, s, a))
  {
    hide LogShape, FilesKept, MetaBehind, Exact, ItemBits, Deletable, Bounds, Mentions;
  }

  lemma StepKeepsPosition(hash: Hash, s: State, a: Action)
    requires Inv(s) && Enabled(s, a) && !s.phase.Down?
    requires MemoryIsExact(hash, s) && BlobsBehind(s) && BlobPosition(hash, s)
    requires s.phase.Replaying? ==> s.phase.tail == []
    ensures !Do(hash, s, a).phase.Down? ==> BlobPosition(hash, Do(hash, s, a))
  {
    hide Inv, Do, MemoryIsExact, BlobPosition;
    if a.WriteBlob? || a.RotateWriteBlob? || a.AppendMarker? {
      BlobStepKeepsPosition(hash, s, a);
    } else if a.AppendEntry? || a.ApplyLocally? || a.RefuseLocally? {
      LogStepKeepsPosition(hash, s, a);
    } else {
      QuietStepKeepsPosition(hash, s, a);
    }
  }

  lemma StepKeepsInStep(hash: Hash, s: State, a: Action)
    requires InStep(hash, s) && Enabled(s, a) && !a.Crash? && !a.LoseCoreFiles?
    ensures InStep(hash, Do(hash, s, a))
  {
    StepKeepsInv(hash, s, a);
    if s.phase.Down? {
      FirstBoot(hash, a);
    } else {
      hide Inv, OneWindow, MemoryIsExact, BlobsBehind, BlobPosition, Unlink, Append, AppendTombstone, Deletable,
          Bounds, Mentions;
      StepKeepsWindow(hash, s, a);
      StepKeepsMemory(hash, s, a);
      StepKeepsBlobs(hash, s, a);
      StepKeepsPosition(hash, s, a);
    }
  }

  lemma FirstBoot(hash: Hash, a: Action)
    requires Enabled(FRESH, a) && a.Boot?
    ensures InStep(hash, Do(hash, FRESH, a))
  {
    StepKeepsInv(hash, FRESH, a);
  }

  lemma {:induction false} RunKeepsInStep(hash: Hash, s: State, run: seq<Action>)
    requires InStep(hash, s) && Runs(hash, s, run) && CrashFree(run)
    ensures InStep(hash, Final(hash, s, run))
    decreases |run|
  {
    if run != [] {
      StepKeepsInStep(hash, s, run[0]);
      RunKeepsInStep(hash, Do(hash, s, run[0]), run[1..]);
    }
  }

  // ---- Convergence ----

  /** What a snapshot taken at s guarantees about any longer log of the same run. */
  ghost predicate SnapshotOf(hash: Hash, s: State, log: seq<Event>) {
    && InStep(hash, s) && AtAwait(s) && s.wal.log <= log
    && (s.phase.Promoted? && |s.wal.log| < |log| ==> log[|s.wal.log|].Rotate?)
  }

  /** Every later log of the run is one SnapshotOf speaks about. */
  lemma {:induction false} LaterLogs(hash: Hash, s: State, run: seq<Action>, log: seq<Event>)
    requires InStep(hash, s) && !s.phase.Down? && Runs(hash, s, run) && CrashFree(run)
    requires log == Final(hash, s, run).wal.log
    ensures Applied(s) <= log
    ensures !s.phase.Adding? ==> s.wal.log <= log
    ensures s.phase.Promoted? && |s.wal.log| < |log| ==> log[|s.wal.log|].Rotate?
    decreases |run|
  {
    hide InStep, Exact, Do, Enabled;
    if run != [] {
      var a, rest := run[0], run[1..];
      var s' := Do(hash, s, a);
      assert CrashFree(rest) by {
        assert forall i :: 0 <= i < |rest| ==> rest[i] == run[i + 1];
      }
      StepKeepsInStep(hash, s, a);
      StaysUp(hash, s, a);
      LaterLogs(hash, s', rest, log);
    }
  }

  lemma StaysUp(hash: Hash, s: State, a: Action)
    requires InStep(hash, s) && !s.phase.Down? && Enabled(s, a) && !a.Crash?
    ensures var s' := Do(hash, s, a);
      && !s'.phase.Down?
      && Applied(s) <= Applied(s')
      && (!s.phase.Adding? ==> s.wal.log <= Applied(s'))
      && (!s.phase.Adding? && s'.phase.Adding? ==> s.wal.log == Applied(s'))
      && (s.phase.Promoted? ==> |s.wal.log| < |Applied(s')| && Applied(s')[|s.wal.log|].Rotate?)
  {
    hide LogShape, FilesKept, MetaBehind, Gen, ValidItem, ItemBits, Unlink, AppendTombstone, Deletable, Exact;
    LogSteps(hash, s, a);
  }

  /** Between operations the coordinator's memory is its filters after the last event. */
  lemma MemoryIsTheLog(hash: Hash, s: State)
    requires InStep(hash, s) && s.phase.Idle?
    ensures s.pair == CoordinatorPair(hash, s.wal.log, |s.wal.log|)
  {
    hide Inv, Exact;
    assert s.wal.log[..|s.wal.log|] == s.wal.log;
  }

  /** At the consistency point the coordinator's current filter is empty and its previous one is today's. */
  lemma FiltersAtPoint(hash: Hash, s: State)
    requires InStep(hash, s) && AtAwait(s)
    ensures var point := s.metaState.lastBackupLsn;
      && point <= |s.wal.log| && NoRotate(s.wal.log[point..])
      && CoordinatorPair(hash, s.wal.log, point) == Pair({}, Exact(hash, EMPTY, s.wal.log).previous)
  {
    hide LogShape, FilesKept, Gen;
    var log, point := s.wal.log, s.metaState.lastBackupLsn;
    assert log[point..|log|] == log[point..];
    ExactSplit(hash, EMPTY, log, point);
    ExactWithoutRotate(hash, Exact(hash, EMPTY, log[..point]), log[point..]);
    if point > 0 {
      assert log[..point] == log[..point - 1] + [log[point - 1]];
      ExactAppend(hash, EMPTY, log[..point - 1], log[point - 1]);
    }
  }

  /** From a node and a coordinator in a known relation at m, the relation at n. */
  lemma Onwards(hash: Hash, p: Pair, log: seq<Event>, point: nat, m: nat, n: nat)
    requires point <= m <= n <= |log|
    ensures NodePair(hash, p, log, point, n) == Replicated(hash, NodePair(hash, p, log, point, m), log[m..n])
    ensures CoordinatorPair(hash, log, n) == Exact(hash, CoordinatorPair(hash, log, m), log[m..n])
  {
    ReplicatedSplit(hash, p, log[point..n], m - point);
    assert log[point..n][..m - point] == log[point..m];
    assert log[point..n][m - point..] == log[m..n];
    ExactSplit(hash, EMPTY, log[..n], m);
    assert log[..n][..m] == log[..m];
    assert log[..n][m..] == log[m..n];
  }

  /** A snapshot taken while blobs and memory agree covers the coordinator at its consistency point. */
  lemma SnapshotCoversPoint(hash: Hash, s: State)
    requires InStep(hash, s) && AtAwait(s) && !s.phase.Promoted?
    ensures var point := s.metaState.lastBackupLsn;
      point <= |s.wal.log| && Covers(SnapshotPair(s), CoordinatorPair(hash, s.wal.log, point))
  {
    FiltersAtPoint(hash, s);
    hide Inv, Exact;
  }

  /**
   * Convergence: a node that installed any snapshot and applied the tail up to LSN n misses no
   * bit of the coordinator's filters after event n. A snapshot taken between the promotion of
   * the blob and the rotation marker needs the marker to be applied first.
   */
  lemma NodeCoversCoordinator(hash: Hash, s: State, log: seq<Event>, n: nat)
    requires SnapshotOf(hash, s, log) && s.metaState.lastBackupLsn <= n <= |log|
    requires s.phase.Promoted? ==> |s.wal.log| < n
    ensures Covers(NodePair(hash, SnapshotPair(s), log, s.metaState.lastBackupLsn, n), CoordinatorPair(hash, log, n))
  {
    var point := s.metaState.lastBackupLsn;
    FiltersAtPoint(hash, s);
    hide Inv, InStep, Exact, Replicated;
    if s.phase.Promoted? {
      MarkerCatchesUp(hash, s, log);
      var m := |s.wal.log| + 1;
      Onwards(hash, SnapshotPair(s), log, point, m, n);
      ReplicatedCoversExact(hash, NodePair(hash, SnapshotPair(s), log, point, m), CoordinatorPair(hash, log, m),
          log[m..n]);
    } else {
      SnapshotCoversPoint(hash, s);
      assert log[..point] == s.wal.log[..point];
      Onwards(hash, SnapshotPair(s), log, point, point, n);
      assert log[point..point] == [];
      NothingApplied(hash, SnapshotPair(s));
      ReplicatedCoversExact(hash, SnapshotPair(s), CoordinatorPair(hash, log, point), log[point..n]);
    }
  }

  lemma NothingApplied(hash: Hash, p: Pair)
    ensures Replicated(hash, p, []) == p
  {
  }

  lemma NoRotateSlice(log: seq<Event>, from: nat, to: nat)
    requires from <= to <= |log| && NoRotate(log[from..])
    ensures NoRotate(log[from..to])
  {
    assert forall i :: 0 <= i < to - from ==> log[from..to][i] == log[from..][i];
  }

  /** What the tail since the consistency point makes of a snapshot, up to the snapshot's own moment. */
  lemma TailOnSnapshot(hash: Hash, s: State, n: nat)
    requires InStep(hash, s) && AtAwait(s) && s.metaState.lastBackupLsn <= n <= |s.wal.log|
    ensures var point := s.metaState.lastBackupLsn;
      var node := NodePair(hash, SnapshotPair(s), s.wal.log, point, n);
      var coordinator := CoordinatorPair(hash, s.wal.log, n);
      && node.previous == SnapshotPair(s).previous
      && coordinator.previous == Exact(hash, EMPTY, s.wal.log).previous
      && coordinator.current + SnapshotPair(s).current <= node.current
      && (NoTombstone(s.wal.log[point..n]) ==> node.current == coordinator.current + SnapshotPair(s).current)
  {
    var log, point := s.wal.log, s.metaState.lastBackupLsn;
    var p := SnapshotPair(s);
    hide Inv, InStep, Exact, Replicated, NoRotate, NoTombstone;
    FiltersAtPoint(hash, s);
    var tail := log[point..n];
    NoRotateSlice(log, point, n);
    var base := Pair({}, p.previous);
    ExtraBitsStay(hash, base, p.current, tail);
    assert p == base.(current := base.current + p.current);
    Onwards(hash, p, log, point, point, n);
    var q := CoordinatorPair(hash, log, point);
    ExactWithoutRotate(hash, q, tail);
    SameCurrent(hash, base, q, tail);
  }

  /** The previous filter has no say in what the current one becomes before a rotation. */
  lemma {:induction false} SameCurrent(hash: Hash, p: Pair, q: Pair, tail: seq<Event>)
    requires NoRotate(tail) && p.current == q.current
    ensures Exact(hash, q, tail).current <= Replicated(hash, p, tail).current
    ensures NoTombstone(tail) ==> Exact(hash, q, tail).current == Replicated(hash, p, tail).current
  {
    if tail != [] {
      SameCurrent(hash, p, q, tail[..|tail| - 1]);
    }
  }

  /** The marker that follows a promotion brings the node's filters onto the coordinator's. */
  lemma MarkerCatchesUp(hash: Hash, s: State, log: seq<Event>)
    requires SnapshotOf(hash, s, log) && s.phase.Promoted? && |s.wal.log| < |log|
    ensures var point, m := s.metaState.lastBackupLsn, |s.wal.log| + 1;
      && point <= m <= |log|
      && Covers(NodePair(hash, SnapshotPair(s), log, point, m), CoordinatorPair(hash, log, m))
      && (NoTombstone(log[point..m - 1]) ==>
          NodePair(hash, SnapshotPair(s), log, point, m) == CoordinatorPair(hash, log, m))
  {
    hide Inv, InStep, Exact, Replicated;
    var point, k := s.metaState.lastBackupLsn, |s.wal.log|;
    FiltersAtPoint(hash, s);
    TailOnSnapshot(hash, s, k);
    PromotedIsEmpty(hash, s);
    assert log[..k] == s.wal.log && log[point..k] == s.wal.log[point..k] && s.wal.log[..k] == s.wal.log;
    ExactAppend(hash, EMPTY, log[..k], log[k]);
    ReplicatedAppend(hash, SnapshotPair(s), log[point..k], log[k]);
    assert log[..k + 1] == log[..k] + [log[k]];
    assert log[point..k + 1] == log[point..k] + [log[k]];
  }

  lemma PromotedIsEmpty(hash: Hash, s: State)
    requires InStep(hash, s) && s.phase.Promoted?
    ensures SnapshotPair(s).current == {}
  {
  }

  /** Outside the promoted window the blobs are the previous filter and a part of the current one. */
  lemma BlobsAreBehind(hash: Hash, s: State)
    requires InStep(hash, s) && AtAwait(s) && !s.phase.Promoted?
    ensures SnapshotPair(s).previous == Exact(hash, EMPTY, s.wal.log).previous
    ensures SnapshotPair(s).current <= Exact(hash, EMPTY, s.wal.log).current
  {
  }

  /**
   * Equality: once the node has applied everything logged when the snapshot was taken, and the
   * replayed tail has no tombstone, its filters equal the coordinator's bit for bit.
   */
  lemma NodeEqualsCoordinator(hash: Hash, s: State, log: seq<Event>, n: nat)
    requires SnapshotOf(hash, s, log) && |s.wal.log| <= n <= |log|
    requires s.phase.Promoted? ==> |s.wal.log| < n
    requires s.metaState.lastBackupLsn <= n && NoTombstone(log[s.metaState.lastBackupLsn..n])
    ensures NodePair(hash, SnapshotPair(s), log, s.metaState.lastBackupLsn, n) == CoordinatorPair(hash, log, n)
  {
    hide Inv, InStep, Exact, Replicated;
    var point := s.metaState.lastBackupLsn;
    FiltersAtPoint(hash, s);
    var m := if s.phase.Promoted? then |s.wal.log| + 1 else |s.wal.log|;
    var k := |s.wal.log|;
    assert log[..k] == s.wal.log && s.wal.log[..k] == s.wal.log && log[point..k] == s.wal.log[point..k];
    assert NoTombstone(log[point..k]) by {
      assert forall i :: 0 <= i < k - point ==> log[point..k][i] == log[point..n][i];
    }
    assert NoTombstone(log[m..n]) by {
      assert forall i :: 0 <= i < n - m ==> log[m..n][i] == log[point..n][m - point + i];
    }
    if s.phase.Promoted? {
      MarkerCatchesUp(hash, s, log);
    } else {
      TailOnSnapshot(hash, s, k);
      BlobsAreBehind(hash, s);
      assert CoordinatorPair(hash, log, k) == Exact(hash, EMPTY, s.wal.log);
    }
    assert NodePair(hash, SnapshotPair(s), log, point, m) == CoordinatorPair(hash, log, m);
    Onwards(hash, SnapshotPair(s), log, point, m, n);
    ReplicatedIsExact(hash, CoordinatorPair(hash, log, m), log[m..n]);
  }

  /**
   * In the promoted window, before the marker is applied, the node covers the coordinator exactly
   * when the filter the rotation evicts had nothing the promoted one lacks.
   */
  lemma PromotedWindow(hash: Hash, s: State, n: nat)
    requires InStep(hash, s) && s.phase.Promoted? && s.metaState.lastBackupLsn <= n <= |s.wal.log|
    ensures
      var node := NodePair(hash, SnapshotPair(s), s.wal.log, s.metaState.lastBackupLsn, n);
      Covers(node, CoordinatorPair(hash, s.wal.log, n))
      <==> Exact(hash, EMPTY, s.wal.log).previous <= Exact(hash, EMPTY, s.wal.log).current
  {
    TailOnSnapshot(hash, s, n);
  }

  /** Within one window the current filter stays inside B exactly when every entry's bits are in B. */
  lemma {:induction false} WindowInside(hash: Hash, q: Pair, tail: seq<Event>, b: Bits)
    requires NoRotate(tail)
    ensures Exact(hash, q, tail).current <= b
      <==> q.current <= b && forall i :: 0 <= i < |tail| && tail[i].Entry? ==> hash(tail[i].item) <= b
  {
    if tail != [] {
      var front := tail[..|tail| - 1];
      WindowInside(hash, q, front, b);
      assert tail == front + [tail[|tail| - 1]];
    }
  }

  /** The entries logged after event n that the current blob already holds add no bit. */
  ghost predicate BlobAddsNothing(hash: Hash, s: State, n: nat)
    requires n <= |s.wal.log|
  {
    forall i :: n <= i < s.blobAt && i < |s.wal.log| && s.wal.log[i].Entry? ==>
      hash(s.wal.log[i].item) <= CoordinatorPair(hash, s.wal.log, n).current
  }

  lemma SliceNoRotate(log: seq<Event>, point: nat, lo: nat, hi: nat)
    requires point <= lo <= hi <= |log| && NoRotate(log[point..])
    ensures NoRotate(log[lo..hi])
  {
    assert forall i :: 0 <= i < hi - lo ==> log[lo..hi][i] == log[point..][lo - point + i];
  }

  /** The current filter as of `at` is inside the one as of n exactly when what lies between adds no bit. */
  lemma InsideAt(hash: Hash, log: seq<Event>, point: nat, n: nat, at: nat)
    requires point <= n <= |log| && point <= at <= |log| && NoRotate(log[point..])
    ensures Exact(hash, EMPTY, log[..at]).current <= CoordinatorPair(hash, log, n).current
      <==> forall i :: n <= i < at && log[i].Entry? ==> hash(log[i].item) <= CoordinatorPair(hash, log, n).current
  {
    hide Exact;
    var q := CoordinatorPair(hash, log, n);
    if n <= at {
      SliceNoRotate(log, point, n, at);
      ExactSplit(hash, EMPTY, log[..at], n);
      assert log[..at][..n] == log[..n] && log[..at][n..] == log[n..at];
      WindowInside(hash, q, log[n..at], q.current);
      assert forall i :: 0 <= i < at - n ==> log[n..at][i] == log[n + i];
      assert forall i :: n <= i < at ==> log[i] == log[n..at][i - n];
    } else {
      SliceNoRotate(log, point, at, n);
      ExactSplit(hash, EMPTY, log[..n], at);
      assert log[..n][..at] == log[..at] && log[..n][at..] == log[at..n];
      ExactWithoutRotate(hash, Exact(hash, EMPTY, log[..at]), log[at..n]);
    }
  }

  lemma BlobInWindow(hash: Hash, s: State)
    requires InStep(hash, s) && AtAwait(s) && !s.phase.Promoted?
    ensures s.metaState.lastBackupLsn <= s.blobAt <= |s.wal.log|
    ensures OrEmpty(s.core.current) == Exact(hash, EMPTY, s.wal.log[..s.blobAt]).current
  {
    hide Exact, LogShape, FilesKept, MetaBehind;
  }

  lemma BlobIsInside(hash: Hash, s: State, n: nat)
    requires InStep(hash, s) && AtAwait(s) && !s.phase.Promoted?
    requires s.metaState.lastBackupLsn <= n <= |s.wal.log|
    ensures OrEmpty(s.core.current) <= CoordinatorPair(hash, s.wal.log, n).current <==> BlobAddsNothing(hash, s, n)
  {
    FiltersAtPoint(hash, s);
    BlobInWindow(hash, s);
    hide InStep, Exact, CoordinatorPair;
    InsideAt(hash, s.wal.log, s.metaState.lastBackupLsn, n, s.blobAt);
  }

  /**
   * Before the snapshot's own moment, on a tail without tombstones, equality holds exactly when
   * the entries between event n and the last write of the current blob add no bit: always from
   * that write on.
   */
  lemma EarlyEquality(hash: Hash, s: State, n: nat)
    requires InStep(hash, s) && AtAwait(s) && !s.phase.Promoted?
    requires s.metaState.lastBackupLsn <= n <= |s.wal.log| && NoTombstone(s.wal.log[s.metaState.lastBackupLsn..n])
    ensures NodePair(hash, SnapshotPair(s), s.wal.log, s.metaState.lastBackupLsn, n)
      == CoordinatorPair(hash, s.wal.log, n)
      <==> BlobAddsNothing(hash, s, n)
    ensures s.blobAt <= n ==> BlobAddsNothing(hash, s, n)
  {
    TailOnSnapshot(hash, s, n);
    BlobsAreBehind(hash, s);
    BlobIsInside(hash, s, n);
    hide InStep, Exact, Replicated, BlobAddsNothing;
    assert s.blobAt <= n ==> BlobAddsNothing(hash, s, n) by {
      NothingAfterBlob(hash, s, n);
    }
  }

  lemma NothingAfterBlob(hash: Hash, s: State, n: nat)
    requires n <= |s.wal.log|
    ensures s.blobAt <= n ==> BlobAddsNothing(hash, s, n)
  {
  }

  /** In the promoted window equality holds exactly when the promoted and the evicted filter are the same. */
  lemma PromotedEquality(hash: Hash, s: State, n: nat)
    requires InStep(hash, s) && s.phase.Promoted?
    requires s.metaState.lastBackupLsn <= n <= |s.wal.log| && NoTombstone(s.wal.log[s.metaState.lastBackupLsn..n])
    ensures NodePair(hash, SnapshotPair(s), s.wal.log, s.metaState.lastBackupLsn, n)
      == CoordinatorPair(hash, s.wal.log, n)
      <==> Exact(hash, EMPTY, s.wal.log).previous == Exact(hash, EMPTY, s.wal.log).current
  {
    TailOnSnapshot(hash, s, n);
    PromotedIsEmpty(hash, s);
    PromotedIsPrevious(hash, s);
    hide InStep, Exact, Replicated;
  }

  lemma PromotedIsPrevious(hash: Hash, s: State)
    requires InStep(hash, s) && s.phase.Promoted?
    ensures SnapshotPair(s).previous == Exact(hash, EMPTY, s.wal.log).current
  {
  }

  /** When a snapshot taken at s makes a node cover the coordinator after event n. */
  ghost predicate CoversFrom(hash: Hash, s: State, n: nat) {
    s.phase.Promoted? && n <= |s.wal.log| ==>
      Exact(hash, EMPTY, s.wal.log).previous <= Exact(hash, EMPTY, s.wal.log).current
  }

  /** When it makes a node equal to it, on a tail without tombstones. */
  ghost predicate EqualsFrom(hash: Hash, s: State, n: nat) {
    n <= |s.wal.log| ==>
      if s.phase.Promoted? then Exact(hash, EMPTY, s.wal.log).previous == Exact(hash, EMPTY, s.wal.log).current
      else BlobAddsNothing(hash, s, n)
  }

  lemma SameOnPrefix(hash: Hash, p: Pair, log: seq<Event>, log': seq<Event>, point: nat, n: nat)
    requires point <= n <= |log| && log <= log'
    ensures NodePair(hash, p, log', point, n) == NodePair(hash, p, log, point, n)
    ensures CoordinatorPair(hash, log', n) == CoordinatorPair(hash, log, n)
    ensures log'[point..n] == log[point..n]
  {
    assert log'[point..n] == log[point..n] && log'[..n] == log[..n];
  }

  /** Exactly when a node covers the coordinator. */
  lemma CoverageExactly(hash: Hash, s: State, log: seq<Event>, n: nat)
    requires SnapshotOf(hash, s, log) && s.metaState.lastBackupLsn <= n <= |log|
    ensures Covers(NodePair(hash, SnapshotPair(s), log, s.metaState.lastBackupLsn, n), CoordinatorPair(hash, log, n))
      <==> CoversFrom(hash, s, n)
  {
    hide InStep, Exact, Replicated, Covers, NodePair, CoordinatorPair;
    if s.phase.Promoted? && n <= |s.wal.log| {
      SameOnPrefix(hash, SnapshotPair(s), s.wal.log, log, s.metaState.lastBackupLsn, n);
      PromotedWindow(hash, s, n);
    } else {
      NodeCoversCoordinator(hash, s, log, n);
    }
  }

  /** Exactly when a node equals the coordinator bit for bit. */
  lemma EqualityExactly(hash: Hash, s: State, log: seq<Event>, n: nat)
    requires SnapshotOf(hash, s, log) && s.metaState.lastBackupLsn <= n <= |log|
    requires NoTombstone(log[s.metaState.lastBackupLsn..n])
    ensures NodePair(hash, SnapshotPair(s), log, s.metaState.lastBackupLsn, n) == CoordinatorPair(hash, log, n)
      <==> EqualsFrom(hash, s, n)
  {
    hide InStep, Exact, Replicated, NodePair, CoordinatorPair, NoTombstone, BlobAddsNothing;
    if n <= |s.wal.log| {
      SameOnPrefix(hash, SnapshotPair(s), s.wal.log, log, s.metaState.lastBackupLsn, n);
      if s.phase.Promoted? {
        PromotedEquality(hash, s, n);
      } else {
        EarlyEquality(hash, s, n);
      }
    } else {
      NodeEqualsCoordinator(hash, s, log, n);
    }
  }

  /**
   * Convergence over every crash-free run: snapshot at any await after `before`, tail from anything
   * that follows. From the first event logged after the snapshot on, coverage and equality always hold.
   */
  lemma ConvergenceOverRuns(hash: Hash, before: seq<Action>, after: seq<Action>, n: nat)
    requires Runs(hash, FRESH, before) && CrashFree(before) && AtAwait(Final(hash, FRESH, before))
    requires Runs(hash, Final(hash, FRESH, before), after) && CrashFree(after)
    requires var s := Final(hash, FRESH, before);
      s.metaState.lastBackupLsn <= n <= |Final(hash, s, after).wal.log|
    ensures var s := Final(hash, FRESH, before);
      var log := Final(hash, s, after).wal.log;
      var node := NodePair(hash, SnapshotPair(s), log, s.metaState.lastBackupLsn, n);
      && (Covers(node, CoordinatorPair(hash, log, n)) <==> CoversFrom(hash, s, n))
      && (NoTombstone(log[s.metaState.lastBackupLsn..n]) ==>
          (node == CoordinatorPair(hash, log, n) <==> EqualsFrom(hash, s, n)))
  {
    hide InStep, Do, Enabled, Exact, Replicated, CoversFrom, EqualsFrom, NodePair, CoordinatorPair, Covers;
    assert InStep(hash, FRESH) by {
      FreshIsInStep(hash);
    }
    RunKeepsInStep(hash, FRESH, before);
    var s := Final(hash, FRESH, before);
    var log := Final(hash, s, after).wal.log;
    LaterLogs(hash, s, after, log);
    CoverageExactly(hash, s, log, n);
    if NoTombstone(log[s.metaState.lastBackupLsn..n]) {
      EqualityExactly(hash, s, log, n);
    }
  }

  lemma FreshIsInStep(hash: Hash)
    ensures InStep(hash, FRESH)
  {
  }

  /** Early inequality is real: a blob written after event n makes the node differ from the coordinator at n. */
  lemma EarlyInequality(hash: Hash, item: Text) returns (run: seq<Action>)
    requires ValidItem(item) && hash(item) != {}
    ensures Runs(hash, FRESH, run) && CrashFree(run) && Final(hash, FRESH, run).phase.BlobWritten?
    ensures var s := Final(hash, FRESH, run);
      s.metaState.lastBackupLsn == 0 &&
      NodePair(hash, SnapshotPair(s), s.wal.log, 0, 0) != CoordinatorPair(hash, s.wal.log, 0)
  {
    hide ValidItem, Runs, Final, NodePair, CoordinatorPair;
    var s;
    run, s := AddFirst(hash, item);
    run, s := Take(hash, run, s, WriteBlob);
    assert s.wal.log[0..0] == [] && s.wal.log[..0] == [];
    NodeAtStart(hash, s);
  }

  lemma NodeAtStart(hash: Hash, s: State)
    requires s.wal.log[0..0] == [] && s.wal.log[..0] == []
    ensures NodePair(hash, SnapshotPair(s), s.wal.log, 0, 0) == SnapshotPair(s)
    ensures CoordinatorPair(hash, s.wal.log, 0) == EMPTY
  {
  }

  /** The promoted window is real: a run after which a snapshot lacks what the coordinator still had. */
  lemma PromotedWindowLoses(hash: Hash, item: Text) returns (run: seq<Action>)
    requires ValidItem(item) && hash(item) != {}
    ensures Runs(hash, FRESH, run) && CrashFree(run) && Final(hash, FRESH, run).phase.Promoted?
    ensures var s := Final(hash, FRESH, run);
      && s.metaState.lastBackupLsn <= |s.wal.log|
      && !Covers(NodePair(hash, SnapshotPair(s), s.wal.log, s.metaState.lastBackupLsn, |s.wal.log|),
                 CoordinatorPair(hash, s.wal.log, |s.wal.log|))
  {
    hide ValidItem, Runs, Final, Do, Enabled, CoordinatorPair, NodePair, Covers;
    var s;
    run, s := AddFirst(hash, item);
    run, s := Promotes(hash, run, s);
    run, s := CompleteRotation(hash, run, s, item);
    run, s := Promotes(hash, run, s);
    LostBits(hash, s, item);
  }

  lemma AddFirst(hash: Hash, item: Text) returns (run: seq<Action>, s: State)
    requires ValidItem(item)
    ensures Runs(hash, FRESH, run) && s == Final(hash, FRESH, run) && CrashFree(run)
    ensures s.phase.Idle? && s.wal == Wal([Entry(1, 0, item)], [0], {0}, 0, 0) && s.pair == Pair(hash(item), {})
    ensures s.nextLsn == 2 && s.metaState == Meta(0, 0, 0)
  {
    hide ValidItem, Runs, Final;
    run, s := Start(hash);
    run, s := Take(hash, run, s, Boot(0, 0));
    run, s := Take(hash, run, s, FinishBoot);
    assert s == State(Wal([], [], {}, 0, 0), Meta(0, 0, 0), CoreDisk(None, None, []),
                      1, Meta(0, 0, 0), EMPTY, Idle, REPLAY_BATCH_LIMIT, 0, 0);
    run, s := Take(hash, run, s, AppendEntry(item));
    run, s := Take(hash, run, s, ApplyLocally);
  }

  lemma CompleteRotation(hash: Hash, run: seq<Action>, s: State, item: Text) returns (run': seq<Action>, s': State)
    requires Runs(hash, FRESH, run) && s == Final(hash, FRESH, run) && CrashFree(run) && s.phase.Promoted?
    requires s.wal == Wal([Entry(1, 0, item)], [0], {0}, 0, 0) && s.nextLsn == 2 && s.metaState == Meta(0, 0, 0)
    ensures Runs(hash, FRESH, run') && s' == Final(hash, FRESH, run') && CrashFree(run')
    ensures s'.phase.Idle? && s'.wal.log == [Entry(1, 0, item), Rotate(2, 1)] && |s'.wal.home| == 2
    ensures s'.metaState.lastBackupLsn == 2 && s'.pair == s.pair
  {
    hide Runs, Final;
    run', s' := Take(hash, run, s, AppendMarker);
    run', s' := Take(hash, run', s', WriteMeta);
    run', s' := Take(hash, run', s', FinishRotation);
  }

  /** Two rotations later the node lacks the entry the coordinator's previous filter still holds. */
  lemma LostBits(hash: Hash, s: State, item: Text)
    requires s.wal.log == [Entry(1, 0, item), Rotate(2, 1)] && hash(item) != {}
    requires s.core == CoreDisk(None, Some({}), []) && s.metaState.lastBackupLsn == 2
    ensures !Covers(NodePair(hash, SnapshotPair(s), s.wal.log, 2, 2), CoordinatorPair(hash, s.wal.log, 2))
  {
    var log := s.wal.log;
    var bit :| bit in hash(item);
    assert log[2..2] == [] && log[..2] == [] + [Entry(1, 0, item)] + [Rotate(2, 1)];
    ExactAppend(hash, EMPTY, [], Entry(1, 0, item));
    ExactAppend(hash, EMPTY, [] + [Entry(1, 0, item)], Rotate(2, 1));
    assert bit in CoordinatorPair(hash, log, 2).previous;
    assert bit !in NodePair(hash, SnapshotPair(s), log, 2, 2).previous;
  }
}
