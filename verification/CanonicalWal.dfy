// The coordinator's canonical log on disk: one text file per generation, read back by
// parsing every file. Each method is tied to the log as a value (WalSpec).
module CanonicalWal {
  import opened Texts
  import opened WalSpec
  import opened WalCodec

  /** The last record written at each LSN above `from`. */
  function Latest(records: seq<Event>, from: nat): map<nat, Event> {
    if records == [] then map[]
    else
      var e := records[|records| - 1];
      var m := Latest(records[..|records| - 1], from);
      if e.lsn > from then m[e.lsn := e] else m
  }

  /** The log's events above `from` that live in one of the given files. */
  ghost function HomeEvents(w: Wal, files: set<nat>, from: nat): map<nat, Event>
    requires |w.home| == |w.log|
  {
    map lsn: nat | lsn <= |w.log| && InFiles(w, files, lsn) && from < lsn :: w.log[lsn - 1]
  }

  /** A file whose records, later ones winning, are exactly the log's events of that file. */
  ghost predicate Holds(records: seq<Event>, w: Wal, g: nat)
    requires |w.home| == |w.log|
  {
    Storable(records, g) && Latest(records, 0) == HomeEvents(w, {g}, 0)
  }

  ghost predicate FilesHold(files: map<nat, Text>, records: map<nat, seq<Event>>, w: Wal)
    requires |w.home| == |w.log| && files.Keys == records.Keys
  {
    forall g <- files :: files[g] == FileText(records[g]) && Holds(records[g], w, g)
  }

  lemma {:induction false} LatestAppend(records: seq<Event>, e: Event, from: nat)
    ensures Latest(records + [e], from) ==
      if e.lsn > from then Latest(records, from)[e.lsn := e] else Latest(records, from)
  {
    assert (records + [e])[..|records|] == records;
  }

  lemma {:induction false} LatestAbove(records: seq<Event>, from: nat)
    ensures Latest(records, from) == map lsn | lsn in Latest(records, 0) && lsn > from :: Latest(records, 0)[lsn]
  {
    if records != [] {
      LatestAbove(records[..|records| - 1], from);
    }
  }

  lemma {:induction false} LatestKeys(records: seq<Event>)
    ensures forall e <- records :: e.lsn > 0 ==> e.lsn in Latest(records, 0)
    ensures forall lsn <- Latest(records, 0) :: Latest(records, 0)[lsn] in records && Latest(records, 0)[lsn].lsn == lsn
  {
    if records != [] {
      var front, e := records[..|records| - 1], records[|records| - 1];
      LatestKeys(front);
      assert records == front + [e];
    }
  }

  /** From w to w' file g gains event e (replacing any earlier word at its LSN); no other file changes. */
  ghost predicate OnlyFileGains(w: Wal, w': Wal, g: nat, e: Event)
    requires |w.home| == |w.log| && |w'.home| == |w'.log|
  {
    && HomeEvents(w', {g}, 0) == HomeEvents(w, {g}, 0)[e.lsn := e]
    && forall h :: h != g ==> HomeEvents(w', {h}, 0) == HomeEvents(w, {h}, 0)
  }

  /** Appending an event to file g adds it there and leaves every other file's events alone. */
  lemma HomeAppend(w: Wal, w': Wal, e: Event, g: nat)
    requires |w.home| == |w.log| && w'.log == w.log + [e] && w'.home == w.home + [g] && e.lsn == |w.log| + 1
    ensures OnlyFileGains(w, w', g, e)
  {
  }

  lemma EntryStep(w: Wal, item: Text)
    requires WellFormed(w)
    ensures var w' := WalSpec.AppendEntry(w, item);
      WellFormed(w') && OnlyFileGains(w, w', w.generation, Entry(|w.log| + 1, w.generation, item))
  {
    EntryKeepsWellFormed(w, item);
    HomeAppend(w, WalSpec.AppendEntry(w, item), Entry(|w.log| + 1, w.generation, item), w.generation);
  }

  lemma TombstoneStep(w: Wal)
    requires WellFormed(w) && |w.log| > 0 && w.log[|w.log| - 1].Entry?
    ensures var w' := WalSpec.AppendTombstone(w);
      WellFormed(w') && OnlyFileGains(w, w', w.home[|w.log| - 1], w'.log[|w.log| - 1])
  {
    TombstoneKeepsWellFormed(w);
    HomeTombstone(w, w.home[|w.log| - 1]);
  }

  lemma RotateStep(w: Wal, generation: nat)
    requires WellFormed(w) && w.generation < generation
    ensures var w' := WalSpec.AppendRotate(w, generation);
      WellFormed(w') && OnlyFileGains(w, w', w.generation, Rotate(|w.log| + 1, generation))
    ensures generation !in w.files + {w.generation} && generation !in w.home + [w.generation]
  {
    RotateKeepsWellFormed(w, generation);
    HomeAppend(w, WalSpec.AppendRotate(w, generation), Rotate(|w.log| + 1, generation), w.generation);
  }

  /** Another event with the newest one's LSN changes its file at that LSN only. */
  lemma HomeReplace(w: Wal, w': Wal, g: nat, h: nat)
    requires |w.home| == |w.log| > 0 && w'.home == w.home && |w'.log| == |w.log| && w.home[|w.log| - 1] == g
    requires forall i :: 0 <= i < |w.log| - 1 ==> w'.log[i] == w.log[i]
    ensures h == g ==> HomeEvents(w', {g}, 0) == HomeEvents(w, {g}, 0)[|w.log| := w'.log[|w.log| - 1]]
    ensures h != g ==> HomeEvents(w', {h}, 0) == HomeEvents(w, {h}, 0)
  {
  }

  /** Replacing the newest event by its tombstone changes its file at that LSN only. */
  lemma HomeTombstone(w: Wal, g: nat)
    requires Ordered(w.log) && |w.home| == |w.log| > 0 && w.home[|w.log| - 1] == g && w.log[|w.log| - 1].Entry?
    ensures var w' := WalSpec.AppendTombstone(w); OnlyFileGains(w, w', g, w'.log[|w.log| - 1])
  {
    var w' := WalSpec.AppendTombstone(w);
    hide HomeEvents;
    HomeReplace(w, w', g, g);
    forall h | h != g ensures HomeEvents(w', {h}, 0) == HomeEvents(w, {h}, 0) {
      HomeReplace(w, w', g, h);
    }
  }

  /** With no event between k and x retained, the list up to x is the list up to k plus x. */
  lemma {:induction false} BetweenSkip(w: Wal, from: nat, k: nat, x: nat)
    requires |w.home| == |w.log| && from <= k < x <= |w.log|
    requires forall lsn :: k < lsn < x ==> !Retained(w, lsn)
    ensures Between(w, from, x) == Between(w, from, k) + if Retained(w, x) then [w.log[x - 1]] else []
  {
    if k < x - 1 {
      BetweenSkip(w, from, k, x - 1);
    }
  }

  ghost predicate NoMarker(records: seq<Event>) {
    forall r <- records :: !r.Rotate?
  }

  lemma NoRecordNoMarker()
    ensures NoMarker([])
  {
  }

  lemma NoMarkerAppend(before: seq<Event>, e: Event)
    requires NoMarker(before)
    ensures NoMarker(before + [e]) <==> !e.Rotate?
  {
    assert e in before + [e];
  }

  lemma FileTextAppend(before: seq<Event>, e: Event)
    ensures FileText(before + [e]) == FileText(before) + Render(e) + [NEWLINE]
  {
    hide Render;
    UnlinesAppend(Rendered(before), Render(e));
    assert Rendered(before + [e]) == Rendered(before) + [Render(e)];
  }

  lemma HoldsAppend(before: seq<Event>, w: Wal, w': Wal, g: nat, e: Event)
    requires |w.home| == |w.log| && |w'.home| == |w'.log|
    requires Holds(before, w, g) && OnlyFileGains(w, w', g, e) && NoMarker(before)
    requires e.lsn > 0 && (!e.Rotate? ==> e.generation == g && NEWLINE !in e.item)
    ensures Holds(before + [e], w', g)
  {
    LatestAppend(before, e, 0);
    forall r | r in before + [e] ensures r in before || r == e {}
  }

  lemma OtherFilesHold(files: map<nat, Text>, records: map<nat, seq<Event>>, w: Wal, w': Wal, g: nat, e: Event)
    requires |w.home| == |w.log| && |w'.home| == |w'.log| && files.Keys == records.Keys
    requires FilesHold(files, records, w) && OnlyFileGains(w, w', g, e)
    ensures forall h <- files :: h != g ==> files[h] == FileText(records[h]) && Holds(records[h], w', h)
  {
    hide FileText, HomeEvents, Latest, Storable;
  }

  /** One more record in file g keeps every file true to the log. */
  lemma AppendRecord(files: map<nat, Text>, records: map<nat, seq<Event>>, w: Wal, w': Wal, g: nat,
      before: seq<Event>, e: Event)
    requires |w.home| == |w.log| && |w'.home| == |w'.log| && files.Keys == records.Keys
    requires FilesHold(files, records, w) && OnlyFileGains(w, w', g, e)
    requires before == (if g in records then records[g] else []) && NoMarker(before)
    requires g !in files ==> g !in w.home
    requires e.lsn > 0 && (!e.Rotate? ==> e.generation == g && NEWLINE !in e.item)
    ensures var content := if g in files then files[g] else [];
      FilesHold(files[g := content + Render(e) + [NEWLINE]], records[g := before + [e]], w')
  {
    assert Holds(before, w, g) by {
      if g !in files {
        assert HomeEvents(w, {g}, 0) == map[];
      }
    }
    HoldsAppend(before, w, w', g, e);
    FileTextAppend(before, e);
    assert g !in files ==> FileText(before) == [];
    OtherFilesHold(files, records, w, w', g, e);
    hide Render, FileText, Holds, OnlyFileGains;
  }

  lemma FileFacts(files: map<nat, Text>, records: map<nat, seq<Event>>, w: Wal, g: nat)
    requires |w.home| == |w.log| && files.Keys == records.Keys && FilesHold(files, records, w) && g in files
    ensures files[g] == FileText(records[g]) && Holds(records[g], w, g)
  {
  }

  /** Only the log and its homes matter to the files. */
  lemma FilesHoldFrame(files: map<nat, Text>, records: map<nat, seq<Event>>, w: Wal, w': Wal)
    requires |w.home| == |w.log| && files.Keys == records.Keys && FilesHold(files, records, w)
    requires w'.log == w.log && w'.home == w.home
    ensures FilesHold(files, records, w')
  {
    hide FileText, Latest, Storable;
    assert forall h :: HomeEvents(w', {h}, 0) == HomeEvents(w, {h}, 0);
  }

  lemma UnlinkKeepsFiles(files: map<nat, Text>, records: map<nat, seq<Event>>, w: Wal, g: nat)
    requires |w.home| == |w.log| && files.Keys == records.Keys && FilesHold(files, records, w)
    ensures FilesHold(files - {g}, records - {g}, Unlink(w, g))
  {
    FilesHoldFrame(files, records, w, Unlink(w, g));
    hide Holds, FileText, FileMax;
  }

  lemma NoFileNoEvent(w: Wal, from: nat)
    requires |w.home| == |w.log|
    ensures HomeEvents(w, {}, from) == map[]
  {
  }

  /** Reading one more file on top of the files already read. */
  lemma AddFile(w: Wal, done: set<nat>, g: nat, records: seq<Event>, from: nat)
    requires |w.home| == |w.log| && Holds(records, w, g)
    ensures HomeEvents(w, done, from) + Latest(records, from) == HomeEvents(w, done + {g}, from)
  {
    LatestAbove(records, from);
    var union := HomeEvents(w, done, from) + Latest(records, from);
    forall lsn: nat | InFiles(w, done + {g}, lsn) ensures InFiles(w, done, lsn) || InFiles(w, {g}, lsn) {}
  }

  predicate Below(records: seq<Event>, maxLsn: nat, maxGeneration: nat) {
    forall i :: 0 <= i < |records| ==>
      records[i].lsn <= maxLsn && (records[i].Rotate? ==> records[i].generation <= maxGeneration)
  }

  /** A record found in a file is an LSN of the log kept in that file; a marker is the log's own event. */
  lemma RecordIsRetained(w: Wal, g: nat, records: seq<Event>, e: Event)
    requires |w.home| == |w.log| && g in w.files && Holds(records, w, g) && e in records
    ensures Retained(w, e.lsn) && w.home[e.lsn - 1] == g
    ensures e.Rotate? ==> w.log[e.lsn - 1] == e
  {
    LatestKeys(records);
    assert e.lsn in HomeEvents(w, {g}, 0);
  }

  lemma BoundFile(w: Wal, done: set<nat>, g: nat, records: seq<Event>, maxLsn0: nat, maxGeneration0: nat,
                  maxLsn: nat, maxGeneration: nat)
    requires |w.home| == |w.log| && Holds(records, w, g)
    requires Bounds(w, done, maxLsn0, maxGeneration0) && maxLsn0 <= maxLsn && maxGeneration0 <= maxGeneration
    requires Below(records, maxLsn, maxGeneration) && g <= maxGeneration
    ensures Bounds(w, done + {g}, maxLsn, maxGeneration)
  {
    LatestKeys(records);
    forall lsn: nat | InFiles(w, done + {g}, lsn)
      ensures lsn <= maxLsn && (w.log[lsn - 1].Rotate? ==> w.log[lsn - 1].generation <= maxGeneration)
    {
      if !InFiles(w, done, lsn) {
        assert lsn in HomeEvents(w, {g}, 0);
        assert Latest(records, 0)[lsn] in records;
      }
    }
  }

  /** The highest LSN among a file's records is the one the log assigns to the file. */
  lemma FileMaxOfRecords(records: seq<Event>, w: Wal, g: nat, top: nat)
    requires |w.home| == |w.log| && Holds(records, w, g)
    requires forall i :: 0 <= i < |records| ==> records[i].lsn <= top
    requires top == 0 || exists i :: 0 <= i < |records| && records[i].lsn == top
    ensures top == FileMax(w.home, g, |w.home|)
  {
    LatestKeys(records);
    var t := FileMax(w.home, g, |w.home|);
    if t > 0 {
      assert InFiles(w, {g}, t);
      assert t in HomeEvents(w, {g}, 0);
      assert Latest(records, 0)[t] in records;
    }
    if top > 0 {
      var i :| 0 <= i < |records| && records[i].lsn == top;
      assert records[i] in records;
      assert records[i].lsn in HomeEvents(w, {g}, 0);
    }
  }

  method SmallestOf(s: set<nat>) returns (m: nat)
    requires s != {}
    ensures m in s && forall x <- s :: m <= x
  {
    m :| m in s;
    var rest := s - {m};
    while rest != {}
      invariant m in s && rest <= s
      invariant forall x :: x in s ==> x in rest || m <= x
      decreases rest
    {
      var x :| x in rest;
      rest := rest - {x};
      if x < m {
        m := x;
      }
    }
  }

  predicate Distinct(gs: seq<nat>) {
    forall i, j :: 0 <= i < j < |gs| ==> gs[i] != gs[j]
  }

  lemma DistinctNone()
    ensures Distinct([])
  {
  }

  lemma DistinctAppend(gs: seq<nat>, g: nat)
    requires Distinct(gs) && g !in gs
    ensures Distinct(gs + [g])
  {
  }

  /** `listGenerationFiles`: the generations on disk, ascending. */
  method Ascending(s: set<nat>) returns (sorted: seq<nat>)
    ensures forall i, j :: 0 <= i < j < |sorted| ==> sorted[i] < sorted[j]
    ensures forall g :: g in sorted <==> g in s
  {
    sorted := [];
    var rest := s;
    while rest != {}
      invariant rest <= s
      invariant forall g :: g in sorted <==> g in s && g !in rest
      invariant forall i, x :: 0 <= i < |sorted| && x in rest ==> sorted[i] < x
      invariant forall i, j :: 0 <= i < j < |sorted| ==> sorted[i] < sorted[j]
      decreases rest
    {
      var m := SmallestOf(rest);
      sorted := sorted + [m];
      rest := rest - {m};
    }
  }

  lemma NoLinesNoEvents(g: nat)
    ensures ParseLines([], g) == []
  {
  }

  /** The values of the map in LSN order. */
  method SortByLsn(byLsn: map<nat, Event>, ghost from: nat, ghost w: Wal) returns (sorted: seq<Event>)
    requires |w.home| == |w.log| && byLsn == HomeEvents(w, w.files, from)
    ensures sorted == Between(w, from, |w.log|)
  {
    sorted := [];
    var rest := byLsn.Keys;
    ghost var k := from;
    while rest != {}
      invariant k == from || from < k <= |w.log|
      invariant rest == set lsn | lsn in byLsn && lsn > k
      invariant from <= |w.log| ==> sorted == Between(w, from, k)
      invariant from > |w.log| ==> rest == {} && sorted == []
      decreases rest
    {
      var x := SmallestOf(rest);
      forall lsn | k < lsn < x ensures !Retained(w, lsn) {
        assert lsn !in rest;
        assert InFiles(w, w.files, lsn) == Retained(w, lsn);
      }
      BetweenSkip(w, from, k, x);
      sorted := sorted + [byLsn[x]];
      rest := rest - {x};
      k := x;
    }
    if k < |w.log| {
      forall lsn | k < lsn <= |w.log| ensures !Retained(w, lsn) {
        assert lsn !in rest;
        assert InFiles(w, w.files, lsn) == Retained(w, lsn);
      }
      BetweenSkip(w, from, k, |w.log|);
    }
  }

  class CanonicalWal {
    var files: map<nat, Text>
    var nextLsn: nat
    var generation: nat
    var deletedMaxLsn: nat
    var initialized: bool
    var generationOfFile: nat
    ghost var records: map<nat, seq<Event>>
    ghost var wal: Wal

    /** The directory holds the log `wal`: each file is the text of its records. */
    ghost predicate OnDisk()
      reads this`files, this`records, this`wal
      ensures OnDisk() ==> WellFormed(wal) && files.Keys == records.Keys == wal.files
    {
      && WellFormed(wal)
      && files.Keys == records.Keys == wal.files
      && FilesHold(files, records, wal)
    }

    /** Ready to append: the current file was never deleted and has no rotation marker yet. */
    ghost predicate Ready()
      reads this`files, this`records, this`wal, this`initialized, this`generation
      ensures Ready() ==> OnDisk()
    {
      && OnDisk()
      && initialized
      && generation == wal.generation
      && (generation !in wal.files ==> generation !in wal.home)
      && (generation in records ==> NoMarker(records[generation]))
    }

    ghost predicate Valid()
      reads this
    {
      Ready() && nextLsn == |wal.log| + 1 && deletedMaxLsn == wal.deletedMax
    }

    /** Opens a directory left by an earlier process (or an empty one). */
    constructor (files: map<nat, Text>, ghost records: map<nat, seq<Event>>, ghost wal: Wal)
      requires WellFormed(wal) && files.Keys == records.Keys == wal.files
      requires FilesHold(files, records, wal)
      ensures OnDisk() && !initialized && this.wal == wal && this.records == records
    {
      this.files := files;
      this.nextLsn := 0;
      this.generation := 0;
      this.deletedMaxLsn := 0;
      this.initialized := false;
      this.generationOfFile := 0;
      this.records := records;
      this.wal := wal;
    }

    method Init(nextLsn: nat, generation: nat, deletedMaxLsn: nat)
      requires OnDisk() && nextLsn == |wal.log| + 1 && deletedMaxLsn < nextLsn
      requires wal.generation <= generation && wal.deletedMax <= deletedMaxLsn
      requires generation !in wal.files ==> generation !in wal.home
      requires generation in records ==> NoMarker(records[generation])
      modifies this
      ensures Valid()
      ensures wal == old(wal).(generation := generation, deletedMax := deletedMaxLsn)
    {
      hide FilesHold;
      this.nextLsn := nextLsn;
      this.generation := generation;
      this.deletedMaxLsn := deletedMaxLsn;
      this.initialized := true;
      wal := wal.(generation := generation, deletedMax := deletedMaxLsn);
      FilesHoldFrame(files, records, old(wal), wal);
    }

    function LastLsn(): (lsn: int)
      reads this
      requires Valid()
      ensures lsn == |wal.log|
    {
      nextLsn - 1
    }

    predicate CanServe(fromLsn: nat)
      reads this
      requires Valid()
      ensures CanServe(fromLsn) <==> CanServeFrom(wal, fromLsn)
    {
      fromLsn >= deletedMaxLsn
    }

    /** Appends a line to the current generation's file, creating the file if needed. */
    method AppendLine(line: Text, ghost e: Event, ghost w: Wal)
      requires Ready() && line == Render(e)
      requires e.lsn > 0 && (!e.Rotate? ==> e.generation == generation && NEWLINE !in e.item)
      requires WellFormed(w) && w.files == wal.files + {generation}
      requires OnlyFileGains(wal, w, generation, e)
      modifies this`files, this`records, this`wal
      ensures OnDisk() && wal == w
      ensures !e.Rotate? && w.generation == generation ==> Ready()
    {
      hide FilesHold, OnlyFileGains, Render, WellFormed;
      var content := if generation in files then files[generation] else [];
      ghost var before := if generation in records then records[generation] else [];
      NoRecordNoMarker();
      NoMarkerAppend(before, e);
      AppendRecord(files, records, wal, w, generation, before, e);
      files := files[generation := content + line + [NEWLINE]];
      records := records[generation := before + [e]];
      wal := w;
    }

    method AppendEntry(item: Text) returns (lsn: nat)
      requires Valid() && NEWLINE !in item
      modifies this
      ensures Valid() && lsn == |old(wal).log| + 1
      ensures wal == WalSpec.AppendEntry(old(wal), item)
    {
      hide Render, OnDisk, OnlyFileGains, WellFormed;
      ghost var w := WalSpec.AppendEntry(wal, item);
      EntryStep(wal, item);
      lsn := nextLsn;
      nextLsn := nextLsn + 1;
      AppendLine(Render(Entry(lsn, generation, item)), Entry(lsn, generation, item), w);
    }

    method AppendTombstone(lsn: nat, item: Text)
      requires Valid() && lsn == |wal.log| > 0
      requires wal.log[lsn - 1] == Entry(lsn, generation, item)
      requires wal.home[lsn - 1] == generation && generation in wal.files
      requires NEWLINE !in item
      modifies this
      ensures Valid() && wal == WalSpec.AppendTombstone(old(wal))
    {
      hide Render, OnDisk, OnlyFileGains, WellFormed;
      TombstoneStep(wal);
      AppendLine(Render(Tombstone(lsn, generation, item)), Tombstone(lsn, generation, item),
          WalSpec.AppendTombstone(wal));
    }

    method AppendRotate(generation: nat) returns (lsn: nat)
      requires Valid() && this.generation < generation
      modifies this
      ensures Valid() && lsn == |old(wal).log| + 1
      ensures wal == WalSpec.AppendRotate(old(wal), generation)
    {
      hide Render, OnDisk, OnlyFileGains, WellFormed;
      ghost var w := WalSpec.AppendRotate(wal, generation);
      RotateStep(wal, generation);
      lsn := nextLsn;
      nextLsn := nextLsn + 1;
      AppendLine(Render(Rotate(lsn, generation)), Rotate(lsn, generation), w);
      this.generation := generation;
    }

    /** Parses one file; a malformed line is skipped. */
    method ParseFile(g: nat) returns (events: seq<Event>)
      requires OnDisk() && g in files
      modifies this`generationOfFile
      ensures events == records[g] && Holds(events, wal, g)
    {
      hide ParseLine, ParseLines, FileText, FilesHold, Split, WellFormed, Storable, Latest, HomeEvents;
      FileFacts(files, records, wal, g);
      CompleteFileRoundTrip(records[g], g);
      var lines := Split(files[g], NEWLINE);
      generationOfFile := g;
      events := [];
      var i := 0;
      assert lines[0..] == lines;
      while i < |lines|
        invariant 0 <= i <= |lines|
        invariant events + ParseLines(lines[i..], generationOfFile) == records[g]
      {
        var line := lines[i];
        assert lines[i..] == [line] + lines[i + 1..];
        var event := if line == [] then None else ParseLine(line, generationOfFile);
        if event.Some? {
          ParseFirst(line, lines[i + 1..], generationOfFile, event.value);
          if event.value.Rotate? {
            generationOfFile := event.value.generation;
          }
          events := events + [event.value];
        } else {
          ParseSkips(line, lines[i + 1..], generationOfFile);
        }
        i := i + 1;
      }
      assert lines[|lines|..] == [] && ParseLines([], generationOfFile) == [] by {
        NoLinesNoEvents(generationOfFile);
      }
    }

    method ReadSince(fromLsn: nat, maxEvents: nat) returns (sorted: seq<Event>)
      requires Valid()
      modifies this`generationOfFile
      ensures sorted == WalSpec.ReadSince(wal, fromLsn, maxEvents)
    {
      hide FilesHold, Holds, HomeEvents;
      var byLsn: map<nat, Event> := map[];
      var gens := Ascending(files.Keys);
      ghost var done: set<nat> := {};
      var k := 0;
      NoFileNoEvent(wal, fromLsn);
      while k < |gens|
        invariant 0 <= k <= |gens|
        invariant forall g :: g in gens[..k] <==> g in done
        invariant byLsn == HomeEvents(wal, done, fromLsn)
      {
        var g := gens[k];
        var events := ParseFile(g);
        var i := 0;
        while i < |events|
          invariant 0 <= i <= |events|
          invariant byLsn == HomeEvents(wal, done, fromLsn) + Latest(events[..i], fromLsn)
        {
          var event := events[i];
          LatestAppend(events[..i], event, fromLsn);
          assert events[..i + 1] == events[..i] + [event];
          if event.lsn > fromLsn {
            byLsn := byLsn[event.lsn := event];
          }
          i := i + 1;
        }
        assert events[..|events|] == events;
        AddFile(wal, done, g, events, fromLsn);
        done := done + {g};
        k := k + 1;
      }
      assert done == wal.files;
      sorted := SortByLsn(byLsn, fromLsn, wal);
      if maxEvents > 0 && |sorted| > maxEvents {
        sorted := sorted[..maxEvents];
      }
    }

    /** Startup discovery: the highest LSN and generation the retained files mention. */
    method Scan() returns (maxLsn: nat, maxGeneration: nat)
      requires OnDisk()
      modifies this`generationOfFile
      ensures Bounds(wal, wal.files, maxLsn, maxGeneration) && Mentions(wal, maxLsn, maxGeneration)
    {
      hide FilesHold, WellFormed;
      maxLsn, maxGeneration := 0, 0;
      var gens := Ascending(files.Keys);
      ghost var done: set<nat> := {};
      var k := 0;
      while k < |gens|
        invariant 0 <= k <= |gens|
        invariant forall g :: g in gens[..k] <==> g in done
        invariant Bounds(wal, done, maxLsn, maxGeneration) && Mentions(wal, maxLsn, maxGeneration)
      {
        maxLsn, maxGeneration := ScanFile(gens[k], done, maxLsn, maxGeneration);
        done := done + {gens[k]};
        k := k + 1;
      }
      assert done == wal.files;
    }

    method ScanFile(g: nat, ghost done: set<nat>, maxLsn0: nat, maxGeneration0: nat)
      returns (maxLsn: nat, maxGeneration: nat)
      requires OnDisk() && g in files
      requires Bounds(wal, done, maxLsn0, maxGeneration0) && Mentions(wal, maxLsn0, maxGeneration0)
      modifies this`generationOfFile
      ensures Bounds(wal, done + {g}, maxLsn, maxGeneration) && Mentions(wal, maxLsn, maxGeneration)
    {
      hide FilesHold, Holds, WellFormed, Bounds;
      maxLsn := maxLsn0;
      maxGeneration := if g > maxGeneration0 then g else maxGeneration0;
      var events := ParseFile(g);
      var i := 0;
      while i < |events|
        invariant 0 <= i <= |events| && g <= maxGeneration && maxLsn0 <= maxLsn && maxGeneration0 <= maxGeneration
        invariant Below(events[..i], maxLsn, maxGeneration) && Mentions(wal, maxLsn, maxGeneration)
      {
        var event := events[i];
        RecordIsRetained(wal, g, events, event);
        assert events[..i + 1] == events[..i] + [event];
        if event.lsn > maxLsn {
          maxLsn := event.lsn;
        }
        if event.Rotate? && event.generation > maxGeneration {
          maxGeneration := event.generation;
        }
        i := i + 1;
      }
      assert events[..|events|] == events;
      BoundFile(wal, done, g, events, maxLsn0, maxGeneration0, maxLsn, maxGeneration);
    }

    /** Retention. `stuck` are the files whose unlink fails. */
    method TruncateOldGenerations(keepFromGeneration: nat, lsnFloor: nat, stuck: set<nat>) returns (deleted: seq<nat>)
      requires Valid() && keepFromGeneration <= generation
      modifies this
      ensures Valid() && wal == UnlinkAll(old(wal), deleted)
      ensures forall g :: g in deleted <==> Deletable(old(wal), keepFromGeneration, lsnFloor, g) && g !in stuck
      ensures forall g :: g in wal.files <==>
        (g in old(wal).files && Kept(old(wal), keepFromGeneration, lsnFloor, stuck, g))
      ensures Distinct(deleted)
    {
      hide FilesHold, FileMax, WellFormed, UnlinkAll, Unlink, NoMarker, Distinct;
      ghost var w := wal;
      DistinctNone();
      UnlinkNone(w);
      deleted := [];
      var gens := Ascending(files.Keys);
      ghost var done: set<nat> := {};
      var k := 0;
      while k < |gens|
        invariant 0 <= k <= |gens| && Valid()
        invariant forall g :: g in gens[..k] <==> g in done
        invariant forall g :: g in deleted <==>
          g in done && Deletable(w, keepFromGeneration, lsnFloor, g) && g !in stuck
        invariant wal == UnlinkAll(w, deleted)
        invariant forall g <- gens[k..] :: g in files
        invariant Distinct(deleted)
        invariant generation == w.generation
      {
        var g := gens[k];
        var gone := RetireFile(g, keepFromGeneration, lsnFloor, stuck);
        if gone {
          UnlinkAllAppend(w, deleted, g);
          DistinctAppend(deleted, g);
          deleted := deleted + [g];
        }
        done := done + {g};
        k := k + 1;
      }
      assert done == w.files;
      RetentionLeaves(w, keepFromGeneration, lsnFloor, stuck, deleted);
    }

    method RetireFile(g: nat, keepFromGeneration: nat, lsnFloor: nat, stuck: set<nat>) returns (gone: bool)
      requires Valid() && g in files && keepFromGeneration <= generation
      modifies this
      ensures Valid() && gone == (Deletable(old(wal), keepFromGeneration, lsnFloor, g) && g !in stuck)
      ensures wal == if gone then Unlink(old(wal), g) else old(wal)
      ensures files.Keys == if gone then old(files).Keys - {g} else old(files).Keys
    {
      hide FilesHold, WellFormed, Unlink, FileMax;
      gone := false;
      if g < keepFromGeneration {
        var fileMaxLsn := MaxLsnOfFile(g);
        if fileMaxLsn <= lsnFloor && g !in stuck {
          UnlinkFile(g, fileMaxLsn);
          gone := true;
        }
      }
    }

    method UnlinkFile(g: nat, fileMaxLsn: nat)
      requires Valid() && g in files && g < generation && fileMaxLsn == FileMax(wal.home, g, |wal.home|)
      modifies this`files, this`records, this`wal, this`deletedMaxLsn
      ensures Valid() && wal == Unlink(old(wal), g) && files.Keys == old(files).Keys - {g}
    {
      hide FilesHold, WellFormed, FileMax, NoMarker;
      UnlinkKeepsWellFormed(wal, g);
      UnlinkKeepsFiles(files, records, wal, g);
      files := files - {g};
      records := records - {g};
      wal := Unlink(wal, g);
      if fileMaxLsn > deletedMaxLsn {
        deletedMaxLsn := fileMaxLsn;
      }
    }

    method MaxLsnOfFile(g: nat) returns (fileMaxLsn: nat)
      requires OnDisk() && g in files
      modifies this`generationOfFile
      ensures fileMaxLsn == FileMax(wal.home, g, |wal.home|)
    {
      hide FilesHold, Holds, FileMax;
      var events := ParseFile(g);
      fileMaxLsn := 0;
      var i := 0;
      while i < |events|
        invariant 0 <= i <= |events|
        invariant forall j :: 0 <= j < i ==> events[j].lsn <= fileMaxLsn
        invariant fileMaxLsn == 0 || exists j :: 0 <= j < |events| && events[j].lsn == fileMaxLsn
      {
        if events[i].lsn > fileMaxLsn {
          fileMaxLsn := events[i].lsn;
        }
        i := i + 1;
      }
      FileMaxOfRecords(events, wal, g, fileMaxLsn);
    }
  }
}
