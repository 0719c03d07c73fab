// What the replication laws say in terms of the actions of a run alone: why an engine asked for a
// rebootstrap, and which Subscribe an answering node has caught up with.
module Causes {
  import opened WalSpec
  import opened SyncEngine
  import opened Replication

  /** The state before action k. */
  lemma {:induction false} RunsPrefix(s: Net, run: seq<Action>, k: nat)
    requires Runs(s, run) && k <= |run|
    ensures Runs(s, run[..k])
    ensures k < |run| ==> Enabled(Final(s, run[..k]), run[k])
    ensures k < |run| ==> Runs(s, run[..k + 1]) && Final(s, run[..k + 1]) == Do(Final(s, run[..k]), run[k])
    decreases k
  {
    hide Enabled, Do;
    if k == 0 {
      if run != [] {
        assert run[..1][1..] == [];
      }
    } else {
      RunsPrefix(Do(s, run[0]), run[1..], k - 1);
      assert run[..k][1..] == run[1..][..k - 1];
      if k < |run| {
        assert run[..k + 1][1..] == run[1..][..k];
      }
    }
  }

  /** No snapshot is installed between action k and action n. */
  predicate NoInstall(run: seq<Action>, k: int, n: nat)
    requires n <= |run|
  {
    forall j :: 0 <= j < n && k < j ==> !run[j].Install?
  }

  /** Action k is a Subscribe the coordinator accepts with its log at LSN a. */
  ghost predicate Accepts(s: Net, run: seq<Action>, k: nat, a: nat) {
    && k < |run| && Runs(s, run[..k])
    && var t := Final(s, run[..k]);
       run[k].Subscribe? && CanServeFrom(t.wal, run[k].request) && a == |t.wal.log|
  }

  /**
   * What entitles an engine to ask for a rebootstrap: a request or a drain read below the retention
   * floor, a snapshot that names another generation than its consistency point has, a failed write
   * of the state file, or a revoker that fails to rotate or refuses an item that passes its checks.
   */
  ghost predicate Entitles(t: Net, a: Action) {
    match a
    case Subscribe(request) => !CanServeFrom(t.wal, request)
    case Poll(request, _) => !CanServeFrom(t.wal, request)
    case DrainRead(i) =>
      && i < |t.sources| && t.sources[i].conn.queue != [] && t.sources[i].conn.queue[0].Drain?
      && (!t.sources[i].clean || !CanServeFrom(t.wal, t.sources[i].conn.queue[0].from))
    case ApplyNext(o) =>
      !o.persisted || !o.rotated
      || (!o.applied && t.chain != [] && t.chain[0].1.EntryMsg? && ApplyEntryAccepts(t.chain[0].1.item))
    case Install =>
      && t.snapshot.Some?
      && (t.snapshot.value.0 > |t.wal.log| || t.snapshot.value.1 != Gen(t.wal.log[..t.snapshot.value.0]))
    case _ => false
  }

  ghost predicate EntitledAt(s: Net, run: seq<Action>, k: nat) {
    k < |run| && Runs(s, run[..k]) && Entitles(Final(s, run[..k]), run[k])
  }

  lemma StepExcuses(t: Net, a: Action)
    requires Enabled(t, a) && Do(t, a).excused
    ensures Entitles(t, a) || (t.excused && !a.Install?)
  {
    hide ReadSince, CanServeFrom, Step, Broadcast, ApplyEntryAccepts, Gen;
  }

  lemma StepAccepts(t: Net, a: Action)
    requires Enabled(t, a)
    ensures var t' := Do(t, a);
      if a.Install? then t'.accepted == {}
      else t'.accepted == t.accepted + if a.Subscribe? && CanServeFrom(t.wal, a.request) then {|t.wal.log|} else {}
  {
    hide ReadSince, Step, Broadcast;
  }

  lemma StepStaysAtRest(t: Net, a: Action)
    requires Enabled(t, a) && !a.Install? && t.engine.stopped && !t.engine.fired
    ensures Do(t, a).engine.stopped && !Do(t, a).engine.fired
  {
    hide ReadSince, CanServeFrom, Broadcast;
  }

  lemma {:induction false} ExcuseHasCause(s: Net, run: seq<Action>, n: nat)
    requires Runs(s, run) && n <= |run| && Runs(s, run[..n]) && Final(s, run[..n]).excused
    ensures NoInstall(run, -1, n) || exists k :: 0 <= k < n && EntitledAt(s, run, k) && NoInstall(run, k, n)
  {
    hide Enabled, Do, Entitles, Runs, Final;
    if n > 0 {
      RunsPrefix(s, run, n - 1);
      var t := Final(s, run[..n - 1]);
      StepExcuses(t, run[n - 1]);
      if Entitles(t, run[n - 1]) {
        assert EntitledAt(s, run, n - 1) && NoInstall(run, n - 1, n);
      } else {
        ExcuseHasCause(s, run, n - 1);
        if !NoInstall(run, -1, n - 1) {
          var k :| 0 <= k < n - 1 && EntitledAt(s, run, k) && NoInstall(run, k, n - 1);
          assert NoInstall(run, k, n);
        }
      }
    }
  }

  lemma {:induction false} AcceptedHasCause(s: Net, run: seq<Action>, n: nat, a: nat)
    requires Runs(s, run) && s.accepted == {}
    requires n <= |run| && Runs(s, run[..n]) && a in Final(s, run[..n]).accepted
    ensures exists k :: 0 <= k < n && Accepts(s, run, k, a) && NoInstall(run, k, n)
  {
    hide Enabled, Do, CanServeFrom;
    if n > 0 {
      RunsPrefix(s, run, n - 1);
      hide Runs, Final;
      var t := Final(s, run[..n - 1]);
      StepAccepts(t, run[n - 1]);
      if a in t.accepted {
        AcceptedHasCause(s, run, n - 1, a);
        var k :| 0 <= k < n - 1 && Accepts(s, run, k, a) && NoInstall(run, k, n - 1);
        assert NoInstall(run, k, n);
      } else {
        assert Accepts(s, run, n - 1, a) && NoInstall(run, n - 1, n);
      }
    }
  }

  /** Before the first installation the engine is at rest. */
  lemma {:induction false} RestsUntilInstall(s: Net, run: seq<Action>, n: nat)
    requires Runs(s, run) && s.engine.stopped && !s.engine.fired
    requires n <= |run| && Runs(s, run[..n]) && NoInstall(run, -1, n)
    ensures Final(s, run[..n]).engine.stopped && !Final(s, run[..n]).engine.fired
  {
    hide Enabled, Do;
    if n > 0 {
      RunsPrefix(s, run, n - 1);
      hide Runs, Final;
      RestsUntilInstall(s, run, n - 1);
      StepStaysAtRest(Final(s, run[..n - 1]), run[n - 1]);
    }
  }

  /**
   * No spurious rebootstrap: in every run in which the engine ends up asking for one, some action
   * since the last installation entitled it to. No interleaving of streams, polls, late and repeated
   * events, and coordinator restarts does so by itself.
   */
  lemma RebootstrapHasCause(s: Net, run: seq<Action>)
    requires Initial(s) && Runs(s, run) && Final(s, run).engine.fired
    ensures exists k :: 0 <= k < |run| && EntitledAt(s, run, k) && NoInstall(run, k, |run|)
  {
    NoSpuriousRebootstrap(s, run);
    assert run[..|run|] == run;
    hide Enabled, Do, Runs, Final;
    ExcuseHasCause(s, run, |run|);
    if NoInstall(run, -1, |run|) {
      RestsUntilInstall(s, run, |run|);
    }
  }

  /**
   * Serving gate: whenever the node answers checks, it has been handed the log in order from the
   * installed snapshot on, past the coordinator's lastLsn at a Subscribe accepted since then.
   */
  lemma ServingFollowsSubscribe(s: Net, run: seq<Action>) returns (k: nat, a: nat)
    requires Initial(s) && Runs(s, run) && !Final(s, run).catchingUp
    ensures Accepts(s, run, k, a) && NoInstall(run, k, |run|)
    ensures var t := Final(s, run); a <= t.engine.lastApplied && AppliedPrefix(t.engine, t.wal.log)
  {
    ServingIsCaughtUp(s, run);
    var t := Final(s, run);
    a :| a in t.accepted && a <= t.engine.lastApplied && AppliedPrefix(t.engine, t.wal.log);
    assert run[..|run|] == run;
    hide Enabled, Do, Runs, Final;
    AcceptedHasCause(s, run, |run|, a);
    k :| 0 <= k < |run| && Accepts(s, run, k, a) && NoInstall(run, k, |run|);
  }
}
