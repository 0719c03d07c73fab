// Periodic backups, their retries and rotations of one filter manager, interleaved at every
// await. The mutex and the generation counter are all that keeps a late backup of a
// rotated-out filter away from the files of its successor.
module BackupRace {
  import opened Texts

  const MAX_RETRIES: nat := 3

  // A blob remembers which filter it was taken from; filters are numbered in order of creation.
  datatype Blob = Blob(filter: nat, items: set<Text>)

  datatype Disk = Disk(current: Option<Blob>, previous: Option<Blob>, wal: set<Text>)

  // Where a backup stands. From Granted to Renamed a periodic backup holds the mutex.
  datatype Stage =
    | Starting                   // about to compare generations; also asleep before a retry
    | Queued                     // waiting for the mutex
    | Granted                    // mutex granted, second comparison not yet made
    | Checked                    // past the second comparison
    | Captured(items: set<Text>) // filter read into the temporary blob
    | Renamed                    // blob in place, write-ahead file not yet cleared
    | Finished

  datatype Job = Job(filter: nat, generation: nat, attempt: nat, stage: Stage)

  datatype Rotation =
    | NotRotating
    | RotationQueued                     // generation incremented, waiting for the mutex
    | RotationGranted
    | RotationCaptured(items: set<Text>)
    | RotationRenamed
    | RotationCleared
    | Released(ok: bool)                 // mutex released, filters not yet swapped

  datatype Holder = Nobody | Backup(job: nat) | Rotating

  // The last four fields keep the books: what the running backup read of the live filter; which
  // items of the live filter came after such a read and saw the write-ahead file cleared since,
  // without being added again or read by a later blob; whether the last rotation promoted its
  // blob; and which items of the filter it rotated out came after its read.
  datatype State = State(
    generation: nat,
    contents: seq<set<Text>>,
    timer: Job,
    jobs: seq<Job>,
    rotation: Rotation,
    holder: Holder,
    disk: Disk,
    read: Option<set<Text>>,
    lost: set<Text>,
    promoted: bool,
    missed: set<Text>)

  datatype Action =
    | Insert(item: Text)
    | Tick            // the backup interval fires
    | Begin(i: nat)   // first comparison of an attempt
    | Acquire(i: nat)
    | Check(i: nat)   // second comparison, mutex held
    | Capture(i: nat)
    | Rename(i: nat)
    | Clear(i: nat)   // truncate the write-ahead file, release
    | Fail(i: nat)    // a file operation fails: release, retry later or give up
    | RotateBegin
    | RotateAcquire
    | RotateCapture
    | RotateRename
    | RotateClear
    | RotatePromote
    | RotateFail
    | RotateSwap

  function Live(s: State): nat
    requires s.contents != []
  {
    |s.contents| - 1
  }

  /** What a blob holds of filter f. */
  function Of(b: Option<Blob>, f: int): set<Text> {
    if b.Some? && b.value.filter == f then b.value.items else {}
  }

  /** The items the live filter took since the running backup read it. */
  function Late(s: State): set<Text> {
    if s.contents != [] && s.read.Some? then s.contents[|s.contents| - 1] - s.read.value else {}
  }

  predicate HasMutex(stage: Stage) {
    stage.Granted? || stage.Checked? || stage.Captured? || stage.Renamed?
  }

  predicate RotationHasMutex(r: Rotation) {
    r.RotationGranted? || r.RotationCaptured? || r.RotationRenamed? || r.RotationCleared?
  }

  function SetStage(s: State, i: nat, stage: Stage): State
    requires i < |s.jobs|
  {
    s.(jobs := s.jobs[i := s.jobs[i].(stage := stage)])
  }

  predicate At(s: State, i: nat, stage: Stage) {
    i < |s.jobs| && s.jobs[i].stage == stage
  }

  predicate Enabled(s: State, a: Action) {
    match a
    case Insert(_) => s.contents != []
    case Tick => true
    case Begin(i) => At(s, i, Starting)
    case Acquire(i) => At(s, i, Queued) && s.holder.Nobody?
    case Check(i) => At(s, i, Granted)
    case Capture(i) => At(s, i, Checked) && s.jobs[i].filter < |s.contents|
    case Rename(i) => i < |s.jobs| && s.jobs[i].stage.Captured?
    case Clear(i) => At(s, i, Renamed)
    case Fail(i) => i < |s.jobs| && (s.jobs[i].stage.Checked? || s.jobs[i].stage.Captured? || s.jobs[i].stage.Renamed?)
    case RotateBegin => s.rotation.NotRotating?
    case RotateAcquire => s.rotation.RotationQueued? && s.holder.Nobody?
    case RotateCapture => s.rotation.RotationGranted? && s.contents != []
    case RotateRename => s.rotation.RotationCaptured? && s.contents != []
    case RotateClear => s.rotation.RotationRenamed?
    case RotatePromote => s.rotation.RotationCleared?
    case RotateFail => RotationHasMutex(s.rotation)
    case RotateSwap => s.rotation.Released?
  }

  function Do(s: State, a: Action): State
    requires Enabled(s, a)
  {
    match a
    case Insert(item) =>
      s.(contents := s.contents[Live(s) := s.contents[Live(s)] + {item}],
         disk := s.disk.(wal := s.disk.wal + {item}),
         lost := s.lost - {item})
    case Tick => s.(jobs := s.jobs + [s.timer])
    case Begin(i) => SetStage(s, i, if s.jobs[i].generation != s.generation then Finished else Queued)
    case Acquire(i) => SetStage(s, i, Granted).(holder := Backup(i))
    case Check(i) =>
      if s.jobs[i].generation != s.generation then SetStage(s, i, Finished).(holder := Nobody)
      else SetStage(s, i, Checked)
    case Capture(i) =>
      var items := s.contents[s.jobs[i].filter];
      SetStage(s, i, Captured(items)).(read := Some(items))
    case Rename(i) =>
      var items := s.jobs[i].stage.items;
      SetStage(s, i, Renamed).(disk := s.disk.(current := Some(Blob(s.jobs[i].filter, items))), lost := s.lost - items)
    case Clear(i) =>
      SetStage(s, i, Finished).(disk := s.disk.(wal := {}), holder := Nobody, lost := s.lost + Late(s), read := None)
    case Fail(i) =>
      var j := s.jobs[i];
      var retry := j.attempt + 1 < MAX_RETRIES;
      var j' := if retry then j.(attempt := j.attempt + 1, stage := Starting) else j.(stage := Finished);
      s.(jobs := s.jobs[i := j'], holder := Nobody, read := None)
    case RotateBegin => s.(generation := s.generation + 1, rotation := RotationQueued)
    case RotateAcquire => s.(rotation := RotationGranted, holder := Rotating)
    case RotateCapture => s.(rotation := RotationCaptured(s.contents[Live(s)]), read := Some(s.contents[Live(s)]))
    case RotateRename =>
      s.(rotation := RotationRenamed, disk := s.disk.(current := Some(Blob(Live(s), s.rotation.items))),
         lost := s.lost - s.rotation.items)
    case RotateClear => s.(rotation := RotationCleared, disk := s.disk.(wal := {}), lost := s.lost + Late(s))
    case RotatePromote =>
      s.(rotation := Released(true), holder := Nobody,
         disk := if s.disk.current.Some? then s.disk.(previous := s.disk.current, current := None) else s.disk)
    case RotateFail => s.(rotation := Released(false), holder := Nobody, read := None)
    case RotateSwap =>
      s.(rotation := NotRotating, contents := s.contents + [{}], timer := Job(|s.contents|, s.generation, 0, Starting),
         read := None, lost := {}, promoted := s.rotation.ok, missed := Late(s))
  }

  /** A manager that has just restored itself from `disk`, whose blobs carry the numbers it gives its filters. */
  function Initial(disk: Disk): State {
    var before, items := Of(disk.previous, 0), Of(disk.current, 1) + disk.wal;
    var promoted := disk.previous == Some(Blob(0, before));
    State(0, [before, items], Job(1, 0, 0, Starting), [], NotRotating, Nobody, disk, None, {}, promoted, {})
  }

  ghost predicate Runs(s: State, run: seq<Action>)
    decreases |run|
  {
    run == [] || (Enabled(s, run[0]) && Runs(Do(s, run[0]), run[1..]))
  }

  ghost function Final(s: State, run: seq<Action>): State
    requires Runs(s, run)
    decreases |run|
  {
    if run == [] then s else Final(Do(s, run[0]), run[1..])
  }

  // ---- The invariant ----

  /** A captured generation that still counts belongs to the live filter, and no rotation has begun. */
  predicate Tagged(s: State, j: Job) {
    j.generation <= s.generation &&
    (j.generation == s.generation ==> j.filter == |s.contents| - 1 && s.rotation.NotRotating?)
  }

  /** Past its second comparison a backup belongs to the live filter; at most, a rotation waits for it. */
  predicate Current(s: State, j: Job) {
    (j.stage.Checked? || j.stage.Captured? || j.stage.Renamed?) ==>
      j.filter == |s.contents| - 1 && (s.rotation.NotRotating? || s.rotation.RotationQueued?)
  }

  /** What the running backup read and the lines written since make up the live filter. */
  predicate ReadIsComplete(s: State)
    requires s.contents != []
  {
    s.read.Some? && s.contents[|s.contents| - 1] <= s.read.value + s.disk.wal
  }

  /** A backup in progress holds what was read, and its blob makes good every loss. */
  predicate Complete(s: State, j: Job)
    requires s.contents != []
  {
    && (j.stage.Captured? ==> ReadIsComplete(s) && s.read.value == j.stage.items && s.lost <= j.stage.items)
    && (j.stage.Renamed? ==> ReadIsComplete(s) && s.disk.current == Some(Blob(Live(s), s.read.value)) && s.lost == {})
  }

  ghost predicate JobsInv(s: State)
    requires s.contents != []
  {
    && s.timer.stage.Starting?
    && Tagged(s, s.timer)
    && (s.rotation.NotRotating? ==> s.timer.generation == s.generation)
    && (forall i :: 0 <= i < |s.jobs| ==> Tagged(s, s.jobs[i]) && Current(s, s.jobs[i]) && Complete(s, s.jobs[i]))
  }

  ghost predicate MutexInv(s: State) {
    && (forall i :: 0 <= i < |s.jobs| && HasMutex(s.jobs[i].stage) ==> s.holder == Backup(i))
    && (RotationHasMutex(s.rotation) ==> s.holder == Rotating)
  }

  /** Items that a restart would find in the live filter; between promotion and swap, in the previous one. */
  function OnFile(s: State): set<Text> {
    Of(if s.rotation == Released(true) then s.disk.previous else s.disk.current, |s.contents| - 1) + s.disk.wal
  }

  /** A rotation holds what was read, from its read to the swap. */
  predicate RotationInv(s: State)
    requires s.contents != []
  {
    var blob := if s.read.Some? then Some(Blob(|s.contents| - 1, s.read.value)) else None;
    match s.rotation
    case RotationCaptured(items) => ReadIsComplete(s) && s.read.value == items && s.lost <= items
    case RotationRenamed => ReadIsComplete(s) && s.disk.current == blob && s.lost == {}
    case RotationCleared => blob.Some? && s.disk.current == blob
    case Released(ok) => ok ==> blob.Some? && s.disk.previous == blob && s.disk.current == None
    case _ => true
  }

  ghost predicate DiskInv(s: State)
    requires s.contents != []
  {
    var n := |s.contents|;
    && RotationInv(s)
    && s.lost <= s.contents[n - 1] && (s.read.Some? ==> s.read.value <= s.contents[n - 1])
    && (forall item <- s.contents[n - 1] :: item in OnFile(s) <==> item !in s.lost)
    && (s.lost != {} && s.rotation != Released(true) ==> s.disk.current.Some? && s.disk.current.value.filter == n - 1)
    && (s.promoted && s.rotation != Released(true) ==>
        n >= 2 && s.disk.previous == Some(Blob(n - 2, s.contents[n - 2] - s.missed)))
  }

  ghost predicate Inv(s: State) {
    s.contents != [] && JobsInv(s) && MutexInv(s) && DiskInv(s)
  }

  lemma StepKeepsMutex(s: State, a: Action)
    requires Inv(s) && Enabled(s, a)
    ensures MutexInv(Do(s, a))
  {
    assert s.timer.stage.Starting?;
    hide JobsInv, DiskInv, Late;
    if a.RotateBegin? || a.RotateAcquire? || a.RotateCapture? || a.RotateRename? || a.RotateClear? ||
      a.RotatePromote? || a.RotateFail? || a.RotateSwap? {
      RotationKeepsMutex(s, a);
    } else {
      var s' := Do(s, a);
      forall i | 0 <= i < |s'.jobs| && HasMutex(s'.jobs[i].stage) ensures s'.holder == Backup(i) {
        assert i < |s.jobs| && HasMutex(s.jobs[i].stage) ==> s.holder == Backup(i);
      }
    }
  }

  lemma RotationKeepsMutex(s: State, a: Action)
    requires MutexInv(s) && Enabled(s, a)
    requires a.RotateBegin? || a.RotateAcquire? || a.RotateCapture? || a.RotateRename? || a.RotateClear? ||
      a.RotatePromote? || a.RotateFail? || a.RotateSwap?
    ensures MutexInv(Do(s, a))
  {
    hide Late;
  }

  lemma RotationKeepsJobs(s: State, a: Action)
    requires Inv(s) && Enabled(s, a)
    requires a.RotateBegin? || a.RotateAcquire? || a.RotateCapture? || a.RotateRename? || a.RotateClear? ||
      a.RotatePromote? || a.RotateFail? || a.RotateSwap?
    ensures Do(s, a).contents != [] && JobsInv(Do(s, a))
  {
  }

  lemma InsertKeepsJobs(s: State, item: Text)
    requires Inv(s)
    ensures Do(s, Insert(item)).contents != [] && JobsInv(Do(s, Insert(item)))
  {
  }

  /** One backup moves on without touching filters or files. */
  lemma StageKeepsJobs(s: State, i: nat, stage: Stage, holder: Holder)
    requires s.contents != [] && JobsInv(s) && i < |s.jobs|
    requires var j := s.jobs[i].(stage := stage); Current(s, j) && Complete(s, j)
    ensures JobsInv(SetStage(s, i, stage).(holder := holder))
  {
    var s' := SetStage(s, i, stage).(holder := holder);
    forall k | 0 <= k < |s'.jobs|
      ensures Tagged(s', s'.jobs[k]) && Current(s', s'.jobs[k]) && Complete(s', s'.jobs[k])
    {
      assert Tagged(s, s.jobs[k]) && Current(s, s.jobs[k]) && Complete(s, s.jobs[k]);
    }
  }

  lemma JobInv(s: State, i: nat)
    requires s.contents != [] && JobsInv(s) && i < |s.jobs|
    ensures Tagged(s, s.jobs[i]) && Current(s, s.jobs[i]) && Complete(s, s.jobs[i])
  {
  }

  lemma TickKeepsJobs(s: State)
    requires Inv(s)
    ensures JobsInv(Do(s, Tick))
  {
    hide DiskInv, MutexInv;
    var s' := Do(s, Tick);
    forall k | 0 <= k < |s'.jobs|
      ensures Tagged(s', s'.jobs[k]) && Current(s', s'.jobs[k]) && Complete(s', s'.jobs[k])
    {
      assert k < |s.jobs| ==> Tagged(s, s.jobs[k]) && Current(s, s.jobs[k]) && Complete(s, s.jobs[k]);
    }
  }

  lemma WaitingKeepsJobs(s: State, a: Action)
    requires Inv(s) && Enabled(s, a)
    requires a.Tick? || a.Begin? || a.Acquire? || a.Check?
    ensures Do(s, a).contents != [] && JobsInv(Do(s, a))
  {
    hide DiskInv, MutexInv, JobsInv, ReadIsComplete;
    if a.Tick? {
      TickKeepsJobs(s);
    } else {
      var s' := Do(s, a);
      assert Tagged(s, s.jobs[a.i]) && Current(s, s.jobs[a.i]) by { JobInv(s, a.i); }
      assert s' == SetStage(s, a.i, s'.jobs[a.i].stage).(holder := s'.holder);
      StageKeepsJobs(s, a.i, s'.jobs[a.i].stage, s'.holder);
    }
  }

  lemma WritingKeepsJobs(s: State, a: Action)
    requires Inv(s) && Enabled(s, a)
    requires a.Capture? || a.Rename? || a.Clear? || a.Fail?
    ensures Do(s, a).contents != [] && JobsInv(Do(s, a))
  {
  }

  lemma StepKeepsJobs(s: State, a: Action)
    requires Inv(s) && Enabled(s, a)
    ensures Do(s, a).contents != [] && JobsInv(Do(s, a))
  {
    hide Inv, Enabled, Do, JobsInv;
    if a.Insert? {
      InsertKeepsJobs(s, a.item);
    } else if a.Tick? || a.Begin? || a.Acquire? || a.Check? {
      WaitingKeepsJobs(s, a);
    } else if a.Capture? || a.Rename? || a.Clear? || a.Fail? {
      WritingKeepsJobs(s, a);
    } else {
      RotationKeepsJobs(s, a);
    }
  }

  lemma InsertKeepsDisk(s: State, item: Text)
    requires Inv(s)
    ensures Do(s, Insert(item)).contents != [] && DiskInv(Do(s, Insert(item)))
  {
    hide JobsInv, MutexInv;
  }

  lemma WaitingKeepsDisk(s: State, a: Action)
    requires Inv(s) && Enabled(s, a)
    requires a.Tick? || a.Begin? || a.Acquire? || a.Check? || a.RotateBegin? || a.RotateAcquire?
    ensures Do(s, a).contents != [] && DiskInv(Do(s, a))
  {
    DiskIgnoresJobs(s, Do(s, a));
    hide JobsInv, MutexInv, DiskInv;
  }

  /** Neither jobs nor mutex matter to the files, nor how far a rotation has come before it reads. */
  lemma DiskIgnoresJobs(s: State, s': State)
    requires s.contents != [] && DiskInv(s)
    requires s'.contents == s.contents && s'.disk == s.disk && s'.read == s.read && s'.lost == s.lost
    requires s'.promoted == s.promoted && s'.missed == s.missed
    requires s'.rotation == s.rotation ||
      (!s.rotation.Released? && (s'.rotation.RotationQueued? || s'.rotation.RotationGranted?))
    ensures DiskInv(s')
  {
  }

  lemma WritingKeepsDisk(s: State, a: Action)
    requires Inv(s) && Enabled(s, a)
    requires a.Capture? || a.Rename? || a.Clear? || a.Fail?
    ensures Do(s, a).contents != [] && DiskInv(Do(s, a))
  {
    assert s.jobs[a.i] in s.jobs;
    assert Current(s, s.jobs[a.i]) && Complete(s, s.jobs[a.i]);
    hide JobsInv, MutexInv;
  }

  lemma RotationKeepsDisk(s: State, a: Action)
    requires Inv(s) && Enabled(s, a)
    requires a.RotateCapture? || a.RotateRename? || a.RotateClear? || a.RotatePromote? || a.RotateFail?
    ensures Do(s, a).contents != [] && DiskInv(Do(s, a))
  {
    hide JobsInv, MutexInv;
  }

  lemma SwapKeepsDisk(s: State)
    requires Inv(s) && Enabled(s, RotateSwap)
    ensures Do(s, RotateSwap).contents != [] && DiskInv(Do(s, RotateSwap))
  {
    hide JobsInv, MutexInv;
    var items := s.contents[Live(s)];
    if s.rotation.ok {
      assert items - (items - s.read.value) == s.read.value;
    }
  }

  lemma StepKeepsDisk(s: State, a: Action)
    requires Inv(s) && Enabled(s, a)
    ensures Do(s, a).contents != [] && DiskInv(Do(s, a))
  {
    hide Inv, Enabled, Do, DiskInv;
    if a.Insert? {
      InsertKeepsDisk(s, a.item);
    } else if a.Capture? || a.Rename? || a.Clear? || a.Fail? {
      WritingKeepsDisk(s, a);
    } else if a.RotateCapture? || a.RotateRename? || a.RotateClear? || a.RotatePromote? || a.RotateFail? {
      RotationKeepsDisk(s, a);
    } else if a.RotateSwap? {
      SwapKeepsDisk(s);
    } else {
      WaitingKeepsDisk(s, a);
    }
  }

  lemma {:induction false} ReachableInv(s: State, run: seq<Action>)
    requires Inv(s) && Runs(s, run)
    ensures Inv(Final(s, run))
    decreases |run|
  {
    hide MutexInv, JobsInv, DiskInv, Enabled, Do;
    if run != [] {
      StepKeepsMutex(s, run[0]);
      StepKeepsJobs(s, run[0]);
      StepKeepsDisk(s, run[0]);
      SomeFilter(s, run[0]);
      ReachableInv(Do(s, run[0]), run[1..]);
    }
  }

  lemma SomeFilter(s: State, a: Action)
    requires Enabled(s, a) && s.contents != []
    ensures Do(s, a).contents != []
  {
  }

  lemma InitialInv(disk: Disk)
    ensures Inv(Initial(disk))
  {
    var before := Of(disk.previous, 0);
    assert before - {} == before;
  }

  // ---- What the mutex and the generation counter buy ----

  /**
   * Whenever a periodic backup reads a filter, puts its blob in place or clears the write-ahead
   * file, in whatever interleaving and after whatever retries, it works on the live filter, and
   * any rotation that has begun still waits for it.
   */
  lemma StaleBackupsTouchNothing(disk: Disk, run: seq<Action>, i: nat)
    requires Runs(Initial(disk), run)
    requires var s := Final(Initial(disk), run);
      Enabled(s, Capture(i)) || Enabled(s, Rename(i)) || Enabled(s, Clear(i))
    ensures var s := Final(Initial(disk), run);
      && s.contents != []
      && s.jobs[i].filter == Live(s)
      && (s.rotation.NotRotating? || s.rotation.RotationQueued?)
  {
    hide Runs, Final;
    InitialInv(disk);
    ReachableInv(Initial(disk), run);
  }

  /** Once a filter is rotated out and its blob is not the current one, its blob never is again. */
  lemma {:induction false} RotatedOutStaysOut(s: State, run: seq<Action>, f: nat)
    requires Inv(s) && f < Live(s) && Runs(s, run)
    requires !(s.disk.current.Some? && s.disk.current.value.filter == f)
    ensures var s' := Final(s, run);
      && Inv(s') && f < Live(s')
      && !(s'.disk.current.Some? && s'.disk.current.value.filter == f)
    decreases |run|
  {
    if run != [] {
      FiltersOnlyAdvance(s, run[0], f);
      ReachableInv(s, [run[0]]);
      assert Final(s, [run[0]]) == Do(s, run[0]);
      RotatedOutStaysOut(Do(s, run[0]), run[1..], f);
    }
  }

  lemma FiltersOnlyAdvance(s: State, a: Action, f: nat)
    requires Inv(s) && Enabled(s, a) && f < Live(s)
    requires !(s.disk.current.Some? && s.disk.current.value.filter == f)
    ensures var s' := Do(s, a);
      && Live(s) <= |s'.contents| - 1
      && !(s'.disk.current.Some? && s'.disk.current.value.filter == f)
  {
  }

  function ItemsOf(b: Option<Blob>): set<Text> {
    if b.Some? then b.value.items else {}
  }

  /** What a restart finds on disk, in either filter. */
  function Recovered(d: Disk): set<Text> {
    ItemsOf(d.current) + d.wal + ItemsOf(d.previous)
  }

  /** A restart loads exactly what is recoverable, blob by blob, the write-ahead file into the current filter. */
  lemma RestartLoadsRecovered(disk: Disk)
    requires disk.current.Some? ==> disk.current.value.filter == 1
    requires disk.previous.Some? ==> disk.previous.value.filter == 0
    ensures var s := Initial(disk);
      && s.contents == [ItemsOf(disk.previous), ItemsOf(disk.current) + disk.wal]
      && s.contents[0] + s.contents[1] == Recovered(disk)
  {
    assert ItemsOf(disk.previous) + (ItemsOf(disk.current) + disk.wal) == Recovered(disk);
  }

  /**
   * After every interleaving: an item of the live filter is on disk if and only if it is not among
   * the lost ones - those a clear found later than its read - or the previous blob has it as well.
   */
  lemma LiveItemIsOnDisk(disk: Disk, run: seq<Action>, item: Text)
    requires Runs(Initial(disk), run)
    requires var s := Final(Initial(disk), run); s.contents != [] && item in s.contents[Live(s)]
    ensures var s := Final(Initial(disk), run);
      item in Recovered(s.disk)
      <==> item !in s.lost || (s.disk.previous.Some? && item in s.disk.previous.value.items)
  {
    hide Runs, Final, JobsInv, MutexInv;
    InitialInv(disk);
    ReachableInv(Initial(disk), run);
  }

  /** Between rotations the previous blob is the filter rotated out, less what it took after the rotation read it. */
  lemma PreviousItemIsOnDisk(disk: Disk, run: seq<Action>)
    requires Runs(Initial(disk), run)
    requires var s := Final(Initial(disk), run); s.promoted && s.rotation != Released(true)
    ensures var s := Final(Initial(disk), run);
      |s.contents| >= 2 && s.disk.previous == Some(Blob(Live(s) - 1, s.contents[Live(s) - 1] - s.missed))
  {
    hide Runs, Final, JobsInv, MutexInv;
    InitialInv(disk);
    ReachableInv(Initial(disk), run);
  }

  /** A blob put in place makes good every loss so far. */
  lemma NextBlobRecovers(disk: Disk, run: seq<Action>, i: nat)
    requires Runs(Initial(disk), run) && Enabled(Final(Initial(disk), run), Rename(i))
    ensures Do(Final(Initial(disk), run), Rename(i)).lost == {}
  {
    hide Runs, Final, MutexInv, DiskInv;
    InitialInv(disk);
    ReachableInv(Initial(disk), run);
    assert Complete(Final(Initial(disk), run), Final(Initial(disk), run).jobs[i]);
  }

  lemma {:induction false} RunAppend(s: State, run: seq<Action>, a: Action)
    requires Runs(s, run) && Enabled(Final(s, run), a)
    ensures Runs(s, run + [a]) && Final(s, run + [a]) == Do(Final(s, run), a)
    decreases |run|
  {
    hide Enabled, Do;
    if run == [] {
      assert run + [a] == [a] && [a][1..] == [];
    } else {
      RunAppend(Do(s, run[0]), run[1..], a);
      assert (run + [a])[1..] == run[1..] + [a];
    }
  }

  /** A run, one action longer. */
  lemma Take(s0: State, run: seq<Action>, s: State, a: Action) returns (run': seq<Action>, s': State)
    requires Runs(s0, run) && s == Final(s0, run) && Enabled(s, a)
    ensures run' == run + [a] && Runs(s0, run') && s' == Do(s, a) && s' == Final(s0, run')
  {
    RunAppend(s0, run, a);
    run', s' := run + [a], Do(s, a);
  }

  /** The first periodic backup of a fresh manager, up to its read of the filter. */
  lemma FirstBackup() returns (run: seq<Action>, s: State)
    ensures var s0 := Initial(Disk(None, None, {})); Runs(s0, run) && s == Final(s0, run)
    ensures s.contents == [{}, {}] && s.jobs == [Job(1, 0, 0, Captured({}))] && s.read == Some({}) && s.lost == {}
    ensures s.disk == Disk(None, None, {})
  {
    hide Runs, Final;
    var s0 := Initial(Disk(None, None, {}));
    run, s := [], s0;
    var none: set<Text> := {};
    assert none + none == none;
    assert Runs(s0, run) && s == Final(s0, run) by {
      NoSteps(s0);
    }
    run, s := Take(s0, run, s, Tick);
    run, s := Take(s0, run, s, Begin(0));
    run, s := Take(s0, run, s, Acquire(0));
    run, s := Take(s0, run, s, Check(0));
    run, s := Take(s0, run, s, Capture(0));
  }

  lemma NoSteps(s: State)
    ensures Runs(s, []) && Final(s, []) == s
  {
  }

  /** The loss is real: an item taken before or after the rename, but before the clear, is on no file afterwards. */
  lemma InsertDuringBackupIsLost(item: Text, renamedFirst: bool) returns (run: seq<Action>)
    ensures Runs(Initial(Disk(None, None, {})), run)
    ensures var s := Final(Initial(Disk(None, None, {})), run);
      s.contents == [{}, {item}] && item !in Recovered(s.disk)
  {
    hide Runs, Final;
    var s0 := Initial(Disk(None, None, {}));
    var s;
    run, s := FirstBackup();
    var none: set<Text> := {};
    assert none + {item} == {item};
    if renamedFirst {
      run, s := Take(s0, run, s, Rename(0));
      run, s := Take(s0, run, s, Insert(item));
    } else {
      run, s := Take(s0, run, s, Insert(item));
      run, s := Take(s0, run, s, Rename(0));
    }
    assert s.contents == [{}, {item}] && s.disk.current == Some(Blob(1, {})) && s.disk.previous == None;
    run, s := Take(s0, run, s, Clear(0));
  }

  /** A failed backup frees the mutex, and is tried again unless it was the third attempt. */
  lemma FailureIsRetried(s: State, i: nat)
    requires Enabled(s, Fail(i))
    ensures var s' := Do(s, Fail(i));
      && i < |s'.jobs| && s'.holder == Nobody
      && (s.jobs[i].attempt < 2 ==> s'.jobs[i] == s.jobs[i].(attempt := s.jobs[i].attempt + 1, stage := Starting))
      && (s.jobs[i].attempt >= 2 ==> s'.jobs[i].stage == Finished)
  {
  }

  /**
   * Backups do happen: between rotations, whatever backups have failed before, the next tick with
   * the mutex free and the disk willing ends with the live filter in the blob and nothing lost.
   */
  lemma UndisturbedBackup(s: State) returns (run: seq<Action>, t: State)
    requires Inv(s) && s.rotation.NotRotating? && s.holder.Nobody?
    ensures var i := |s.jobs|; run == [Tick, Begin(i), Acquire(i), Check(i), Capture(i), Rename(i), Clear(i)]
    ensures Runs(s, run) && Final(s, run) == t
    ensures t.contents == s.contents && t.lost == {} && t.holder == Nobody
    ensures t.disk == Disk(Some(Blob(Live(s), s.contents[Live(s)])), s.disk.previous, {})
  {
    TimerIsLive(s);
    hide Runs, Final, Inv, Enabled, Do;
    BackupSteps(s);
    var i := |s.jobs|;
    run, t := [], s;
    NoSteps(s);
    run, t := Take(s, run, t, Tick);
    run, t := Take(s, run, t, Begin(i));
    run, t := Take(s, run, t, Acquire(i));
    run, t := Take(s, run, t, Check(i));
    run, t := Take(s, run, t, Capture(i));
    run, t := Take(s, run, t, Rename(i));
    run, t := Take(s, run, t, Clear(i));
  }

  /** The state with the timer's job at its end, at some stage. */
  function WithJob(s: State, stage: Stage): State {
    s.(jobs := s.jobs + [s.timer.(stage := stage)])
  }

  /** What each step of an undisturbed backup leaves behind. */
  lemma BackupSteps(s: State)
    requires s.contents != [] && s.rotation.NotRotating? && s.holder.Nobody? && s.timer.stage.Starting?
    requires s.timer.generation == s.generation && s.timer.filter == Live(s) && s.lost <= s.contents[Live(s)]
    ensures var i, items := |s.jobs|, s.contents[Live(s)];
      var s1, s2 := WithJob(s, Starting), WithJob(s, Queued);
      var s3 := WithJob(s, Granted).(holder := Backup(i));
      var s4 := WithJob(s, Checked).(holder := Backup(i));
      var s5 := WithJob(s, Captured(items)).(holder := Backup(i), read := Some(items));
      var s6 := WithJob(s, Renamed).(holder := Backup(i), read := Some(items), lost := {},
        disk := s.disk.(current := Some(Blob(Live(s), items))));
      && Enabled(s, Tick) && Do(s, Tick) == s1 && Enabled(s1, Begin(i)) && Do(s1, Begin(i)) == s2
      && Enabled(s2, Acquire(i)) && Do(s2, Acquire(i)) == s3 && Enabled(s3, Check(i)) && Do(s3, Check(i)) == s4
      && Enabled(s4, Capture(i)) && Do(s4, Capture(i)) == s5 && Enabled(s5, Rename(i)) && Do(s5, Rename(i)) == s6
      && Enabled(s6, Clear(i)) && Do(s6, Clear(i)) == WithJob(s, Finished).(lost := {}, read := None,
           disk := Disk(Some(Blob(Live(s), items)), s.disk.previous, {}))
  {
    var none: set<Text> := {};
    assert none + (s.contents[Live(s)] - s.contents[Live(s)]) == none;
    JobReplaced(s, Starting, Queued);
    JobReplaced(s, Queued, Granted);
    JobReplaced(s, Granted, Checked);
    JobReplaced(s, Checked, Captured(s.contents[Live(s)]));
    JobReplaced(s, Captured(s.contents[Live(s)]), Renamed);
    JobReplaced(s, Renamed, Finished);
  }

  lemma JobReplaced(s: State, from: Stage, to: Stage)
    ensures SetStage(WithJob(s, from), |s.jobs|, to) == WithJob(s, to)
  {
    assert WithJob(s, from).jobs[|s.jobs| := s.timer.(stage := to)] == WithJob(s, to).jobs;
  }

  lemma TimerIsLive(s: State)
    requires Inv(s)
    ensures s.contents != [] && s.lost <= s.contents[Live(s)] && s.timer.stage.Starting?
    ensures s.rotation.NotRotating? ==> s.timer.generation == s.generation && s.timer.filter == Live(s)
  {
    assert Tagged(s, s.timer);
  }
}
