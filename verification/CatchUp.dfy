// The serving gate opens: a live node with an accepted stream reaches it by steps of that stream
// and its own apply chain alone.
module CatchUp {
  import opened Texts
  import opened WalSpec
  import opened SyncEngine
  import opened NodeConnection
  import opened Replication

  /** Core and disk do their part, and nobody calls stop(). */
  const HEALTHY := Outcome(true, true, false, true)

  /** What may happen: stream i works on its queue, its messages arrive, and the engine applies its chain. */
  predicate Quiet(a: Action, i: nat) {
    a == DrainRead(i) || a == DrainWrite(i) || a == SendNext(i) || a == Arrive(i) || a == ApplyNext(HEALTHY)
  }

  /** The drain's next read finds everything it wants. */
  predicate AboveFloor(w: Wal, queue: seq<Task>) {
    queue != [] && queue[0].Drain? ==> CanServeFrom(w, queue[0].from)
  }

  /** A live engine where the log says it is, and nothing in its chain from a stream with a gap. */
  ghost predicate Live(s: Net) {
    && !s.engine.fired && !s.engine.stopped && s.engine.lastApplied <= |s.wal.log|
    && s.engine.generation == Gen(s.wal.log[..s.engine.lastApplied])
    && forall j :: 0 <= j < |s.chain| ==> s.chain[j].0 < |s.sources| && s.sources[s.chain[j].0].clean
  }

  /** An open stream that has met no gap so far and meets none from here. */
  ghost predicate Open(s: Net, i: nat) {
    && i < |s.sources| && !s.sources[i].conn.closed && s.sources[i].clean
    && AboveFloor(s.wal, s.sources[i].conn.queue)
  }

  ghost predicate Going(s: Net) {
    Inv(s) && Live(s)
  }

  ghost predicate Ready(s: Net, i: nat) {
    Going(s) && Open(s, i)
  }

  /** Only the engine's progress with its sources differs. */
  predicate OnlyProcesses(s: Net, t: Net) {
    && |t.sources| == |s.sources|
    && forall k :: 0 <= k < |s.sources| ==> t.sources[k] == s.sources[k].(processed := t.sources[k].processed)
  }

  // ---- One step ----

  /** What is known of an open stream. */
  lemma OpenSource(s: Net, i: nat)
    requires Inv(s) && Open(s, i)
    ensures var x := s.sources[i];
      && SourceOk(x, s.wal.log, true) && QueueOk(x, s.wal.log, true) && Passed(x, s.engine)
      && |s.wal.home| == |s.wal.log|
  {
    InvBounds(s);
    hide LogInv, ChainOk, NodeOk, GateOk;
    assert SourceOk(s.sources[i], s.wal.log, s.sources[i].clean);
  }

  lemma WorkKeepsOpen(s: Net, i: nat, a: Action)
    requires Inv(s) && Open(s, i) && Enabled(s, a) && (a == DrainRead(i) || a == DrainWrite(i) || a == SendNext(i))
    ensures var s' := Do(s, a);
      && Open(s', i) && s' == s.(sources := s'.sources) && |s'.sources| == |s.sources|
      && (forall k :: 0 <= k < |s.sources| && k != i ==> s'.sources[k] == s.sources[k])
      && s'.sources[i].handed == s.sources[i].handed
  {
    OpenSource(s, i);
    hide Inv, LastOf, MessageOk, Next, ReadSince, ToWire, KeepaliveDue;
    var x := s.sources[i];
    if !x.conn.queue[0].Drain? {
      PendingHasNoDrain(x.conn.queue, x.sent, x.subscribedAt, s.wal.log);
      PendingHasNoDrain(x.conn.queue[1..],
        if x.conn.queue[0].out.Keepalive? then x.sent else x.sent + 1, x.subscribedAt, s.wal.log);
    } else {
      PendingHasNoDrain(x.conn.queue[1..], x.sent, x.subscribedAt, s.wal.log);
    }
  }

  lemma WorkKeepsReady(s: Net, i: nat, a: Action)
    requires Ready(s, i) && Enabled(s, a) && (a == DrainRead(i) || a == DrainWrite(i) || a == SendNext(i))
    ensures Ready(Do(s, a), i) && Do(s, a).wal == s.wal
  {
    hide Inv, Enabled, Do, Open;
    StepKeepsInv(s, a);
    WorkKeepsOpen(s, i, a);
    OpenIsSource(s, i);
    OpenIsSource(Do(s, a), i);
  }

  lemma OpenIsSource(s: Net, i: nat)
    requires Open(s, i)
    ensures i < |s.sources| && s.sources[i].clean && !s.sources[i].conn.closed
  {
  }

  lemma ArriveKeepsGoing(s: Net, i: nat)
    requires Going(s) && Enabled(s, Arrive(i)) && s.sources[i].clean
    ensures var s' := Do(s, Arrive(i)); Going(s') && s' == s.(chain := s'.chain,
      sources := s.sources[i := s.sources[i].(handed := s.sources[i].handed + 1)])
  {
    hide Inv;
    StepKeepsInv(s, Arrive(i));
  }

  lemma ApplyFrame(s: Net)
    requires |s.wal.home| == |s.wal.log| && s.chain != [] && s.chain[0].0 < |s.sources|
    ensures Enabled(s, ApplyNext(HEALTHY))
    ensures var s' := Do(s, ApplyNext(HEALTHY)); var i := s.chain[0].0;
      && s'.wal == s.wal && s'.chain == s.chain[1..] && s'.engine == Step(s.engine, s.chain[0].1, HEALTHY)
      && s'.sources == s.sources[i := s.sources[i].(processed := s.sources[i].processed + 1)]
  {
  }

  lemma ApplyKeepsGoing(s: Net)
    requires Going(s) && s.chain != []
    ensures Enabled(s, ApplyNext(HEALTHY))
    ensures var s' := Do(s, ApplyNext(HEALTHY));
      && Going(s') && s'.wal == s.wal && s'.chain == s.chain[1..] && OnlyProcesses(s, s')
  {
    InvBounds(s);
    hide Inv, Step, Enabled, Do;
    ApplyFrame(s);
    StepKeepsInv(s, ApplyNext(HEALTHY));
    HeadIsClean(s);
  }

  lemma HeadPasses(s: Net)
    requires Inv(s) && Live(s) && s.chain != []
    ensures var x := s.sources[s.chain[0].0];
      && SourceOk(x, s.wal.log, true) && Passed(x, s.engine) && x.processed < |x.conn.written|
      && x.conn.written[x.processed] == s.chain[0].1
  {
    ChainHead(s);
    assert SourceOk(s.sources[s.chain[0].0], s.wal.log, s.sources[s.chain[0].0].clean);
  }

  /** A clean message is applied, repeats nothing and makes nothing fire. */
  lemma HeadIsClean(s: Net)
    requires Inv(s) && Live(s) && s.chain != []
    ensures var e' := Step(s.engine, s.chain[0].1, HEALTHY);
      && !e'.fired && !e'.stopped && e'.lastApplied <= |s.wal.log|
      && e'.generation == Gen(s.wal.log[..e'.lastApplied])
  {
    HeadPasses(s);
    var x := s.sources[s.chain[0].0];
    hide LogInv, SourcesOk, ChainOk, Progress, NodeOk, GateOk, SourceOk, Passed;
    CleanStepNeverFires(s.engine, x, HEALTHY, s.wal, s.lastBackup);
    NobodyStops(s.engine, s.chain[0].1);
  }

  lemma NobodyStops(e: Engine, ev: Wire)
    requires !e.stopped
    ensures !Step(e, ev, HEALTHY).stopped
  {
  }

  // ---- Runs ----

  lemma {:induction false} RunsAfter(s: Net, a: Action, run: seq<Action>, t: Net)
    requires Enabled(s, a) && Runs(Do(s, a), run) && Final(Do(s, a), run) == t
    ensures Runs(s, [a] + run) && Final(s, [a] + run) == t
  {
    hide Enabled, Do;
    assert ([a] + run)[1..] == run;
  }

  lemma {:induction false} RunsJoin(s: Net, first: seq<Action>, second: seq<Action>)
    requires Runs(s, first) && Runs(Final(s, first), second)
    ensures Runs(s, first + second) && Final(s, first + second) == Final(Final(s, first), second)
    decreases |first|
  {
    hide Enabled, Do;
    if first == [] {
      assert first + second == second;
    } else {
      RunsJoin(Do(s, first[0]), first[1..], second);
      assert (first + second)[1..] == first[1..] + second;
    }
  }

  ghost predicate AllQuiet(run: seq<Action>, i: nat) {
    forall a <- run :: Quiet(a, i)
  }

  /** What is left of the backlog. */
  ghost function Backlog(s: Net, i: nat): int
    requires i < |s.sources|
  {
    var queue := s.sources[i].conn.queue;
    if queue != [] && queue[0].Drain? then |s.wal.log| - queue[0].from else 0
  }

  predicate Unread(queue: seq<Task>) {
    queue != [] && queue[0].Drain? && queue[0].batch == []
  }

  /** The queue is nearer to its end. */
  ghost predicate Nearer(s: Net, s': Net, i: nat) {
    && i < |s.sources| && i < |s'.sources|
    && var queue, queue' := s.sources[i].conn.queue, s'.sources[i].conn.queue;
       || |queue'| < |queue|
       || (|queue'| == |queue| && 0 <= Backlog(s', i) < Backlog(s, i))
       || (|queue'| == |queue| && 0 <= Backlog(s', i) == Backlog(s, i) && Unread(queue) && !Unread(queue'))
  }

  lemma SendBrings(s: Net, i: nat)
    requires |s.wal.home| == |s.wal.log| && Open(s, i) && s.sources[i].conn.queue != []
    requires s.sources[i].conn.queue[0].Send?
    ensures Enabled(s, SendNext(i)) && Nearer(s, Do(s, SendNext(i)), i)
  {
    hide ToWire, CanServeFrom;
  }

  lemma ReadBrings(s: Net, i: nat)
    requires |s.wal.home| == |s.wal.log| && Open(s, i) && Unread(s.sources[i].conn.queue)
    requires s.sources[i].conn.queue[0].from <= |s.wal.log|
    ensures Enabled(s, DrainRead(i)) && Nearer(s, Do(s, DrainRead(i)), i)
  {
    hide ReadSince, CanServeFrom;
  }

  lemma WriteBrings(s: Net, i: nat)
    requires |s.wal.home| == |s.wal.log| && Open(s, i) && s.sources[i].conn.queue != []
    requires var task := s.sources[i].conn.queue[0];
      task.Drain? && task.batch != [] && task.from < task.batch[0].lsn <= |s.wal.log|
    ensures Enabled(s, DrainWrite(i)) && Nearer(s, Do(s, DrainWrite(i)), i)
  {
    hide ToWire, CanServeFrom;
  }

  lemma DrainAtHead(s: Net, i: nat)
    requires Inv(s) && Open(s, i) && s.sources[i].conn.queue != [] && s.sources[i].conn.queue[0].Drain?
    ensures var task := s.sources[i].conn.queue[0];
      task.from <= |s.wal.log| && (task.batch != [] ==> task.from < task.batch[0].lsn <= |s.wal.log|)
  {
    OpenSource(s, i);
    hide Inv, MessagesOk, Pending, LastOf;
  }

  /** The next thing the stream does brings its queue nearer to its end. */
  lemma OneTask(s: Net, i: nat) returns (a: Action)
    requires Ready(s, i) && s.sources[i].conn.queue != []
    ensures (a == DrainRead(i) || a == DrainWrite(i) || a == SendNext(i)) && Enabled(s, a) && Nearer(s, Do(s, a), i)
  {
    InvBounds(s);
    hide Inv, Enabled, Do, Nearer, Open, Live;
    if s.sources[i].conn.queue[0].Send? {
      a := SendNext(i);
      SendBrings(s, i);
    } else {
      DrainAtHead(s, i);
      if s.sources[i].conn.queue[0].batch == [] {
        a := DrainRead(i);
        ReadBrings(s, i);
      } else {
        a := DrainWrite(i);
        WriteBrings(s, i);
      }
    }
  }

  lemma {:induction false} EmptyQueue(s: Net, i: nat) returns (run: seq<Action>, t: Net)
    requires Ready(s, i)
    ensures Runs(s, run) && Final(s, run) == t && AllQuiet(run, i)
    ensures Ready(t, i) && t.wal == s.wal && t.sources[i].conn.queue == []
    decreases |s.sources[i].conn.queue|, Backlog(s, i), if Unread(s.sources[i].conn.queue) then 1 else 0
  {
    hide Inv, Enabled, Do, Live, Quiet, Backlog, Unread;
    if s.sources[i].conn.queue == [] {
      run, t := [], s;
    } else {
      var a := OneTask(s, i);
      WorkKeepsReady(s, i, a);
      BacklogIsNatural(s, i);
      run, t := EmptyQueue(Do(s, a), i);
      RunsAfter(s, a, run, t);
      QuietWork(a, i);
      run := [a] + run;
    }
  }

  lemma BacklogIsNatural(s: Net, i: nat)
    requires Ready(s, i)
    ensures Backlog(s, i) >= 0
  {
    OpenSource(s, i);
    hide Inv, MessagesOk, Pending, LastOf;
  }

  lemma QuietWork(a: Action, i: nat)
    requires a == DrainRead(i) || a == DrainWrite(i) || a == SendNext(i)
    ensures Quiet(a, i)
  {
  }

  lemma {:induction false} ArriveAll(s: Net, i: nat) returns (run: seq<Action>, t: Net)
    requires Going(s) && i < |s.sources| && s.sources[i].clean && s.sources[i].handed <= |s.sources[i].conn.written|
    ensures Runs(s, run) && Final(s, run) == t && AllQuiet(run, i)
    ensures Going(t) && t.wal == s.wal
    ensures t.sources == s.sources[i := s.sources[i].(handed := |s.sources[i].conn.written|)]
    decreases |s.sources[i].conn.written| - s.sources[i].handed
  {
    hide Inv, Do, Live;
    if s.sources[i].handed == |s.sources[i].conn.written| {
      run, t := [], s;
    } else {
      InvBounds(s);
      assert Enabled(s, Arrive(i));
      ArriveKeepsGoing(s, i);
      hide Enabled;
      run, t := ArriveAll(Do(s, Arrive(i)), i);
      RunsAfter(s, Arrive(i), run, t);
      run := [Arrive(i)] + run;
    }
  }

  lemma {:induction false} ApplyAll(s: Net, i: nat) returns (run: seq<Action>, t: Net)
    requires Going(s)
    ensures Runs(s, run) && Final(s, run) == t && AllQuiet(run, i)
    ensures Going(t) && t.wal == s.wal && t.chain == [] && OnlyProcesses(s, t)
    decreases |s.chain|
  {
    hide Inv, Enabled, Do, Live;
    if s.chain == [] {
      run, t := [], s;
    } else {
      ApplyKeepsGoing(s);
      run, t := ApplyAll(Do(s, ApplyNext(HEALTHY)), i);
      RunsAfter(s, ApplyNext(HEALTHY), run, t);
      run := [ApplyNext(HEALTHY)] + run;
    }
  }

  /** With queue and chain empty and everything handed over, the engine has the whole log and the gate is open. */
  lemma NothingIsLeft(s: Net, i: nat)
    requires Ready(s, i) && s.chain == [] && s.sources[i].conn.queue == []
    requires s.sources[i].handed == |s.sources[i].conn.written|
    ensures !s.catchingUp && s.engine.lastApplied == |s.wal.log|
  {
    OpenSource(s, i);
    StreamIsComplete(s, i);
    hide LogInv, SourcesOk, Progress, LastOf;
    var x := s.sources[i];
    assert InChain(x, s.chain, i);
    assert x.processed == |x.conn.written| && x.conn.written[..x.processed] == x.conn.written;
    var j :| 0 <= j < |x.conn.written| && x.conn.written[j].Keepalive?;
    assert !Unheard(x);
  }

  /**
   * The gate opens: from every state with a live engine and an open stream that meets no gap, the
   * work of that stream and of the apply chain alone brings the node to the end of the log and lets
   * it answer - whatever else, from other clean streams and polls, is still in the chain.
   */
  lemma GateOpens(s: Net, i: nat) returns (run: seq<Action>, t: Net)
    requires Ready(s, i)
    ensures Runs(s, run) && Final(s, run) == t && AllQuiet(run, i)
    ensures Inv(t) && !t.catchingUp && t.wal == s.wal && t.engine.lastApplied == |s.wal.log|
    ensures !t.engine.fired && !t.engine.stopped
  {
    hide Inv, Enabled, Do, Quiet, Runs, Final, Live;
    var first, u := EmptyQueue(s, i);
    HandedIsWritten(u, i);
    var second, v := ArriveAll(u, i);
    var third, w := ApplyAll(v, i);
    assert Open(w, i);
    NothingIsLeft(w, i);
    LiveEngine(w);
    RunsJoin(s, first, second);
    RunsJoin(s, first + second, third);
    run, t := first + second + third, w;
  }

  lemma LiveEngine(s: Net)
    requires Going(s)
    ensures !s.engine.fired && !s.engine.stopped && s.engine.lastApplied <= |s.wal.log|
  {
  }

  lemma HandedIsWritten(s: Net, i: nat)
    requires Ready(s, i)
    ensures s.sources[i].handed <= |s.sources[i].conn.written|
  {
    OpenSource(s, i);
    hide Inv, QueueOk;
  }

  // ---- Polls ----

  lemma PollFrame(s: Net, request: nat, maxEvents: nat)
    requires |s.wal.home| == |s.wal.log| && CanServeFrom(s.wal, request)
    requires s.engine.initialLsn <= request <= s.engine.lastApplied
    ensures Enabled(s, Poll(request, maxEvents))
    ensures Do(s, Poll(request, maxEvents)) == s.(sources := s.sources
      + [Answer(request, Wired(PollPage(s.wal, request, maxEvents).0), |s.wal.log|, true)])
  {
    hide PollPage;
  }

  /** A poll of the engine's position answers with the next events of the log, at least one if there is one. */
  lemma PollAnswers(s: Net, maxEvents: nat) returns (page: seq<Event>)
    requires Going(s) && CanServeFrom(s.wal, s.engine.lastApplied)
    ensures Enabled(s, Poll(s.engine.lastApplied, maxEvents))
    ensures var n, s' := s.engine.lastApplied, Do(s, Poll(s.engine.lastApplied, maxEvents));
      && Going(s') && s' == s.(sources := s.sources + [Answer(n, Wired(page), |s.wal.log|, true)])
      && n + |page| <= |s.wal.log| && page == s.wal.log[n..n + |page|] && (page == [] <==> n == |s.wal.log|)
  {
    var request := s.engine.lastApplied;
    InvBounds(s);
    CursorIsPast(s);
    LogOf(s);
    hide Inv, PollPage, CanServeFrom, Enabled, Do, LogInv;
    PollFrame(s, request, maxEvents);
    StepKeepsInv(s, Poll(request, maxEvents));
    PageIsNext(s.wal, s.lastBackup, request, maxEvents);
    page := PollPage(s.wal, request, maxEvents).0;
  }

  lemma CursorIsPast(s: Net)
    requires Inv(s)
    ensures s.engine.initialLsn <= s.engine.lastApplied <= |s.wal.log|
  {
  }

  lemma LogOf(s: Net)
    requires Inv(s)
    ensures LogInv(s.wal, s.lastBackup) && Ordered(s.wal.log)
  {
    LogIsOrdered(s.wal, s.lastBackup);
  }

  /** Once everything that arrived from a clean source is applied, the engine is past the source's last event. */
  lemma PassedAll(s: Net, i: nat, page: seq<Event>)
    requires Going(s) && s.chain == [] && i < |s.sources|
    requires s.sources[i].handed == |s.sources[i].conn.written| && s.sources[i].conn.written == Wired(page)
    requires var n := s.sources[i].request; n + |page| <= |s.wal.log| && page == s.wal.log[n..n + |page|]
    ensures s.engine.lastApplied >= s.sources[i].request + |page|
  {
    var x := s.sources[i];
    LogOf(s);
    PageLast(s.wal.log, x.request, page, |page|);
    hide LogInv, SourcesOk, NodeOk, GateOk, LastOf;
    assert InChain(x, s.chain, i) && Passed(x, s.engine);
    assert x.processed == |x.conn.written| && x.conn.written[..x.processed] == x.conn.written;
    assert Wired(page)[..|page|] == Wired(page);
  }

  /** One poll, its arrival and its application bring the engine forward. */
  lemma PollBringsForward(s: Net, maxEvents: nat) returns (run: seq<Action>, t: Net)
    requires Going(s) && CanServeFrom(s.wal, s.engine.lastApplied) && s.engine.lastApplied < |s.wal.log|
    ensures Runs(s, run) && Final(s, run) == t
    ensures Going(t) && t.wal == s.wal && s.engine.lastApplied < t.engine.lastApplied <= |s.wal.log|
  {
    hide Inv, Live, Going, Enabled, Do, Runs, Final, CanServeFrom, AllQuiet, Wired;
    var page := PollAnswers(s, maxEvents);
    var poll, i := Poll(s.engine.lastApplied, maxEvents), |s.sources|;
    var u := Do(s, poll);
    assert u.sources[i] == Answer(s.engine.lastApplied, Wired(page), |s.wal.log|, true);
    var second, v := ArriveAll(u, i);
    var third, w := ApplyAll(v, i);
    assert w.sources[i] == v.sources[i].(processed := w.sources[i].processed);
    PassedAll(w, i, page);
    LiveEngine(w);
    RunsJoin(u, second, third);
    RunsAfter(s, poll, second + third, w);
    run, t := [poll] + (second + third), w;
  }

  /** Without any stream, polling alone brings a live engine to the end of the log. */
  lemma {:induction false} PollsCatchUp(s: Net, maxEvents: nat) returns (run: seq<Action>, t: Net)
    requires Going(s) && CanServeFrom(s.wal, s.engine.lastApplied)
    ensures Runs(s, run) && Final(s, run) == t
    ensures Inv(t) && t.wal == s.wal && t.engine.lastApplied == |s.wal.log|
    ensures !t.engine.fired && !t.engine.stopped
    decreases |s.wal.log| - s.engine.lastApplied
  {
    LiveEngine(s);
    hide Inv, Live, Enabled, Do;
    if s.engine.lastApplied == |s.wal.log| {
      run, t := [], s;
    } else {
      hide Runs, Final;
      var first, u := PollBringsForward(s, maxEvents);
      var rest, v := PollsCatchUp(u, maxEvents);
      RunsJoin(s, first, rest);
      run, t := first + rest, v;
    }
  }

  // ---- Where such states come from ----

  /** A Subscribe the coordinator accepts from a live node with nothing dubious in its chain. */
  lemma SubscribeIsReady(s: Net, request: nat)
    requires Going(s) && Enabled(s, Subscribe(request)) && CanServeFrom(s.wal, request)
    ensures Ready(Do(s, Subscribe(request)), |s.sources|) && Do(s, Subscribe(request)).wal == s.wal
  {
    hide Inv;
    StepKeepsInv(s, Subscribe(request));
  }

  /**
   * A bootstrap ends in service: installing a snapshot that names the generation of its consistency
   * point, which the coordinator can serve from, and subscribing there.
   */
  lemma BootstrapServes(s: Net) returns (run: seq<Action>, t: Net)
    requires Inv(s) && Enabled(s, Install)
    requires var (point, generation) := s.snapshot.value;
      point <= |s.wal.log| && CanServeFrom(s.wal, point) && generation == Gen(s.wal.log[..point])
    ensures Runs(s, run) && Final(s, run) == t
    ensures Inv(t) && !t.catchingUp && t.wal == s.wal && t.engine.lastApplied == |s.wal.log|
  {
    var point := s.snapshot.value.0;
    InstallIsLive(s);
    hide Enabled, Do, Ready, Live, CanServeFrom, Inv, Runs, Final;
    var u := Do(s, Install);
    SubscribeIsReady(u, point);
    var rest, v := GateOpens(Do(u, Subscribe(point)), |u.sources|);
    RunsAfter(u, Subscribe(point), rest, v);
    RunsAfter(s, Install, [Subscribe(point)] + rest, v);
    run, t := [Install] + ([Subscribe(point)] + rest), v;
  }

  lemma InstallIsLive(s: Net)
    requires Inv(s) && Enabled(s, Install)
    requires var (point, generation) := s.snapshot.value;
      point <= |s.wal.log| && generation == Gen(s.wal.log[..point])
    ensures var u := Do(s, Install); Going(u) && u.wal == s.wal && Enabled(u, Subscribe(s.snapshot.value.0))
  {
    InvBounds(s);
    hide Inv, CanServeFrom;
    StepKeepsInv(s, Install);
    InstallAtPoint(s);
    hide Do;
  }

  lemma InstallAtPoint(s: Net)
    requires Enabled(s, Install)
    ensures var (point, generation) := s.snapshot.value;
      Do(s, Install) == s.(sources := [], chain := [], snapshot := None, accepted := {}, engine := Engine(point, point,
          generation, false, false, false, Some(SyncState(point, generation, false)), []),
          excused := point > |s.wal.log| || generation != Gen(s.wal.log[..point]))
  {
  }

  /**
   * Recovery: from every state whatsoever - gate closed, engine fired or stopped, streams with gaps -
   * a bootstrap from the coordinator as it stands brings the node back into service at the end of
   * the log, provided the coordinator's generation is that of its consistency point.
   */
  lemma RecoveryServes(s: Net) returns (run: seq<Action>, t: Net)
    requires Inv(s) && s.lastBackup <= |s.wal.log| && s.wal.generation == Gen(s.wal.log[..s.lastBackup])
    ensures Runs(s, run) && Final(s, run) == t
    ensures Inv(t) && !t.catchingUp && t.wal == s.wal && t.engine.lastApplied == |s.wal.log|
  {
    InvBounds(s);
    PointIsServable(s);
    hide Inv, Enabled, Do, Runs, Final, CanServeFrom;
    SnapshotFrame(s);
    var u := Do(s, TakeSnapshot);
    StepKeepsInv(s, TakeSnapshot);
    SwapFrame(u);
    var v := Do(u, BeginBootstrap);
    StepKeepsInv(u, BeginBootstrap);
    var rest, w := BootstrapServes(v);
    RunsAfter(u, BeginBootstrap, rest, w);
    RunsAfter(s, TakeSnapshot, [BeginBootstrap] + rest, w);
    run, t := [TakeSnapshot] + ([BeginBootstrap] + rest), w;
  }

  lemma PointIsServable(s: Net)
    requires Inv(s)
    ensures CanServeFrom(s.wal, s.lastBackup)
  {
  }
}
