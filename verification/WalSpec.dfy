// The canonical log as a value: the events in LSN order, the file each one lives in,
// and which files retention has left on disk.
module WalSpec {
  import opened Texts

  datatype Event =
    | Entry(lsn: nat, generation: nat, item: Text)
    | Tombstone(lsn: nat, generation: nat, item: Text)
    | Rotate(lsn: nat, generation: nat)

  // log[i] is the event at LSN i + 1; home[i] is the generation of the file holding it.
  datatype Wal = Wal(
    log: seq<Event>,
    home: seq<nat>,
    files: set<nat>,
    generation: nat,
    deletedMax: nat)

  predicate Ordered(log: seq<Event>) {
    forall i :: 0 <= i < |log| ==> log[i].lsn == i + 1
  }

  /** The filter generation after the log: that of its last rotation marker. */
  function Gen(log: seq<Event>): nat {
    if log == [] then 0
    else
      var last := log[|log| - 1];
      if last.Rotate? then last.generation else Gen(log[..|log| - 1])
  }

  /** Every marker opens the next generation; entries carry the running one. */
  predicate Generations(log: seq<Event>) {
    forall i :: 0 <= i < |log| ==>
      log[i].generation == if log[i].Rotate? then Gen(log[..i]) + 1 else Gen(log[..i])
  }

  predicate NoRotate(log: seq<Event>) {
    forall i :: 0 <= i < |log| ==> !log[i].Rotate?
  }

  lemma GenerationsPrefix(log: seq<Event>, n: nat)
    requires Generations(log) && n <= |log|
    ensures Generations(log[..n])
  {
    forall i | 0 <= i < n ensures log[..n][..i] == log[..i] {}
  }

  lemma GenOfLast(log: seq<Event>)
    requires Generations(log) && log != []
    ensures var k := |log| - 1; Gen(log) == if log[k].Rotate? then Gen(log[..k]) + 1 else Gen(log[..k])
  {
  }

  /** Generations only grow, by one at each marker. */
  lemma {:induction false} GenMonotone(log: seq<Event>, n: nat)
    requires Generations(log) && n <= |log|
    ensures Gen(log[..n]) <= Gen(log)
    ensures NoRotate(log[n..]) <==> Gen(log[..n]) == Gen(log)
  {
    hide NoRotate, Gen, Generations;
    if n == |log| {
      assert log[..n] == log && log[n..] == [];
      NoRotateNothing();
    } else {
      var k := |log| - 1;
      GenerationsPrefix(log, k);
      GenOfLast(log);
      GenMonotone(log[..k], n);
      assert log[..k][..n] == log[..n];
      assert log[n..] == log[..k][n..] + [log[k]];
      NoRotateAppend(log[..k][n..], log[k]);
    }
  }

  lemma NoRotateNothing()
    ensures NoRotate([])
  {
  }

  /** A marker names a generation the log has reached. */
  lemma MarkerIsPast(log: seq<Event>, n: nat)
    requires Generations(log) && n < |log| && log[n].Rotate?
    ensures log[n].generation <= Gen(log)
  {
    GenMonotone(log, n + 1);
    hide Generations, NoRotate;
    assert log[..n + 1][n] == log[n];
  }

  lemma NoRotateAppend(log: seq<Event>, e: Event)
    ensures NoRotate(log + [e]) <==> NoRotate(log) && !e.Rotate?
  {
    assert forall i :: 0 <= i < |log| ==> (log + [e])[i] == log[i];
    assert (log + [e])[|log|] == e;
  }

  lemma NoRotateCons(e: Event, rest: seq<Event>)
    ensures NoRotate([e] + rest) <==> !e.Rotate? && NoRotate(rest)
  {
    var log := [e] + rest;
    assert log[0] == e;
    assert forall i :: 0 <= i < |rest| ==> rest[i] == log[i + 1];
    assert forall i :: 0 < i < |log| ==> log[i] == rest[i - 1];
  }

  /** Everything retention promises to leave readable is readable. */
  predicate WellFormed(w: Wal)
    ensures WellFormed(w) ==> |w.home| == |w.log|
  {
    && Ordered(w.log)
    && |w.home| == |w.log|
    && w.deletedMax <= |w.log|
    && (forall g <- w.files :: g <= w.generation)
    && (forall i :: 0 <= i < |w.home| ==> w.home[i] <= w.generation)
    && (forall i :: w.deletedMax <= i < |w.log| ==> w.home[i] in w.files)
  }

  predicate Retained(w: Wal, lsn: nat)
    requires |w.home| == |w.log|
  {
    1 <= lsn <= |w.log| && w.home[lsn - 1] in w.files
  }

  predicate InFiles(w: Wal, files: set<nat>, lsn: nat)
    requires |w.home| == |w.log|
  {
    1 <= lsn <= |w.log| && w.home[lsn - 1] in files
  }

  /** No event of the files in `done`, nor their names, exceeds the two maxima. */
  ghost predicate Bounds(w: Wal, done: set<nat>, maxLsn: nat, maxGeneration: nat)
    requires |w.home| == |w.log|
  {
    && (forall lsn: nat :: InFiles(w, done, lsn) ==>
        lsn <= maxLsn && (w.log[lsn - 1].Rotate? ==> w.log[lsn - 1].generation <= maxGeneration))
    && (forall g <- done :: g <= maxGeneration)
  }

  /** The maxima are 0 or really mentioned on disk. */
  ghost predicate Mentions(w: Wal, maxLsn: nat, maxGeneration: nat)
    requires |w.home| == |w.log|
  {
    && (maxLsn == 0 || Retained(w, maxLsn))
    && (maxGeneration == 0 || maxGeneration in w.files
        || exists lsn: nat :: Retained(w, lsn) && w.log[lsn - 1] == Rotate(lsn, maxGeneration))
  }

  /** The retained events with lo < lsn <= hi, in LSN order. */
  function Between(w: Wal, lo: nat, hi: nat): (events: seq<Event>)
    requires |w.home| == |w.log| && hi <= |w.log|
    decreases hi
  {
    if hi <= lo then []
    else Between(w, lo, hi - 1) + if Retained(w, hi) then [w.log[hi - 1]] else []
  }

  /** `readSince`: 0 means no cap. */
  function ReadSince(w: Wal, from: nat, maxEvents: nat): (events: seq<Event>)
    requires |w.home| == |w.log|
  {
    var all := Between(w, from, |w.log|);
    if 0 < maxEvents < |all| then all[..maxEvents] else all
  }

  predicate CanServeFrom(w: Wal, from: nat) {
    from >= w.deletedMax
  }

  /** Appends one event to the current generation's file. */
  function Append(w: Wal, e: Event): Wal {
    w.(log := w.log + [e], home := w.home + [w.generation], files := w.files + {w.generation})
  }

  function AppendEntry(w: Wal, item: Text): Wal {
    Append(w, Entry(|w.log| + 1, w.generation, item))
  }

  /** Tombstones the newest event, an entry (what Coordinator.add does when the filter refuses it). */
  function AppendTombstone(w: Wal): Wal
    requires |w.log| > 0 && w.log[|w.log| - 1].Entry?
  {
    var e := w.log[|w.log| - 1];
    w.(log := w.log[..|w.log| - 1] + [Tombstone(e.lsn, e.generation, e.item)])
  }

  function AppendRotate(w: Wal, generation: nat): Wal {
    Append(w, Rotate(|w.log| + 1, generation)).(generation := generation)
  }

  /** Highest LSN stored in file g among the first n, 0 when there is none. */
  function FileMax(home: seq<nat>, g: nat, n: nat): (top: nat)
    requires n <= |home|
    ensures top <= n
    ensures top > 0 ==> home[top - 1] == g
    ensures forall i :: top <= i < n ==> home[i] != g
  {
    if n == 0 then 0 else if home[n - 1] == g then n else FileMax(home, g, n - 1)
  }

  /** Retention considers exactly these files. */
  predicate Deletable(w: Wal, keepFrom: nat, floor: nat, g: nat)
    requires |w.home| == |w.log|
  {
    g in w.files && g < keepFrom && FileMax(w.home, g, |w.home|) <= floor
  }

  /** Unlinks one file: the retention floor rises to its highest LSN. */
  function Unlink(w: Wal, g: nat): Wal
    requires |w.home| == |w.log|
  {
    var top := FileMax(w.home, g, |w.home|);
    w.(files := w.files - {g}, deletedMax := if top > w.deletedMax then top else w.deletedMax)
  }

  /** Unlinks files one after the other. */
  function UnlinkAll(w: Wal, gs: seq<nat>): (w': Wal)
    requires |w.home| == |w.log|
    ensures w'.log == w.log && w'.home == w.home && w'.generation == w.generation
  {
    if gs == [] then w else Unlink(UnlinkAll(w, gs[..|gs| - 1]), gs[|gs| - 1])
  }

  lemma UnlinkNone(w: Wal)
    requires |w.home| == |w.log|
    ensures UnlinkAll(w, []) == w
  {
  }

  lemma UnlinkAllAppend(w: Wal, gs: seq<nat>, g: nat)
    requires |w.home| == |w.log|
    ensures UnlinkAll(w, gs + [g]) == Unlink(UnlinkAll(w, gs), g)
  {
    assert (gs + [g])[..|gs|] == gs;
  }

  lemma {:induction false} UnlinkAllFiles(w: Wal, gs: seq<nat>)
    requires |w.home| == |w.log|
    ensures UnlinkAll(w, gs).files == w.files - set g | g in gs
  {
    if gs != [] {
      var front := gs[..|gs| - 1];
      UnlinkAllFiles(w, front);
      assert gs == front + [gs[|gs| - 1]];
    }
  }

  /** New enough, impossible to unlink, or holding an event above the consistency point. */
  ghost predicate Kept(w: Wal, keepFrom: nat, floor: nat, stuck: set<nat>, g: nat) {
    keepFrom <= g || g in stuck || exists i :: floor <= i < |w.home| && w.home[i] == g
  }

  /** After retention a file is left exactly if it is new enough, could not be unlinked, or is still needed. */
  lemma RetentionLeaves(w: Wal, keepFrom: nat, floor: nat, stuck: set<nat>, deleted: seq<nat>)
    requires |w.home| == |w.log|
    requires forall g :: g in deleted <==> Deletable(w, keepFrom, floor, g) && g !in stuck
    ensures forall g :: g in UnlinkAll(w, deleted).files <==> g in w.files && Kept(w, keepFrom, floor, stuck, g)
  {
    UnlinkAllFiles(w, deleted);
    hide UnlinkAll, FileMax;
    forall g ensures FileMax(w.home, g, |w.home|) <= floor <==> forall i :: floor <= i < |w.home| ==> w.home[i] != g {
      FileMaxAbove(w.home, g, floor);
    }
  }

  /** A file's highest LSN is at most `point` exactly when no event above it lives there. */
  lemma FileMaxAbove(home: seq<nat>, g: nat, point: nat)
    ensures FileMax(home, g, |home|) <= point <==> forall i :: point <= i < |home| ==> home[i] != g
  {
  }

  // ---- Reading ----

  /** Above the retention floor nothing is missing. */
  lemma {:induction false} BetweenComplete(w: Wal, lo: nat, hi: nat)
    requires WellFormed(w) && w.deletedMax <= lo <= hi <= |w.log|
    ensures Between(w, lo, hi) == w.log[lo..hi]
  {
    if lo < hi {
      BetweenComplete(w, lo, hi - 1);
      assert w.log[lo..hi] == w.log[lo..hi - 1] + [w.log[hi - 1]];
    }
  }

  /** Whatever was deleted, the events come in strictly increasing LSN order, each from the log. */
  lemma {:induction false} BetweenIncreasing(w: Wal, lo: nat, hi: nat)
    requires Ordered(w.log) && |w.home| == |w.log| && hi <= |w.log|
    ensures forall i :: 0 <= i < |Between(w, lo, hi)| ==>
      var e := Between(w, lo, hi)[i]; lo < e.lsn <= hi && e == w.log[e.lsn - 1]
    ensures forall i, j :: 0 <= i < j < |Between(w, lo, hi)| ==>
      Between(w, lo, hi)[i].lsn < Between(w, lo, hi)[j].lsn
  {
    if lo < hi {
      BetweenIncreasing(w, lo, hi - 1);
    }
  }

  /** Retention soundness: a servable cursor reads the complete sequence from + 1 .. lastLsn. */
  lemma ServableReadIsComplete(w: Wal, from: nat)
    requires WellFormed(w) && from <= |w.log| && CanServeFrom(w, from)
    ensures ReadSince(w, from, 0) == w.log[from..]
  {
    BetweenComplete(w, from, |w.log|);
  }

  /** A capped read from a servable cursor is a contiguous run, cut short only by the cap. */
  lemma ServablePage(w: Wal, from: nat, maxEvents: nat)
    requires WellFormed(w) && from <= |w.log| && CanServeFrom(w, from) && maxEvents > 0
    ensures ReadSince(w, from, maxEvents) ==
      w.log[from..if from + maxEvents < |w.log| then from + maxEvents else |w.log|]
  {
    BetweenComplete(w, from, |w.log|);
  }

  // ---- What the appends and retention keep ----

  lemma EntryKeepsWellFormed(w: Wal, item: Text)
    requires WellFormed(w)
    ensures WellFormed(AppendEntry(w, item))
  {
  }

  lemma TombstoneKeepsWellFormed(w: Wal)
    requires WellFormed(w) && |w.log| > 0 && w.log[|w.log| - 1].Entry?
    ensures WellFormed(AppendTombstone(w))
  {
  }

  lemma RotateKeepsWellFormed(w: Wal, generation: nat)
    requires WellFormed(w) && w.generation <= generation
    ensures WellFormed(AppendRotate(w, generation))
    ensures w.generation < generation ==>
      var w' := AppendRotate(w, generation); generation !in w'.files && generation !in w'.home
  {
  }

  /** Deleting any file keeps every promise, whichever unlinks fail before or after it. */
  lemma UnlinkKeepsWellFormed(w: Wal, g: nat)
    requires WellFormed(w)
    ensures WellFormed(Unlink(w, g))
  {
    var w' := Unlink(w, g);
    forall i | w'.deletedMax <= i < |w'.log| ensures w'.home[i] in w'.files {
      assert w.home[i] != g;
    }
  }
}
