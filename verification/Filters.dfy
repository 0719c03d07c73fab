// Filter pairs as sets of bit positions, and what a log of events does to them.
module Filters {
  import opened Texts
  import opened WalSpec

  type Bits = set<nat>

  // The bit positions of an item; coordinator and nodes share one geometry, hence one hash.
  type Hash = Text -> Bits

  datatype Pair = Pair(current: Bits, previous: Bits)

  const EMPTY := Pair({}, {})

  function AddItem(hash: Hash, p: Pair, item: Text): Pair {
    p.(current := p.current + hash(item))
  }

  /** A rotation: the current filter becomes the previous one. */
  function Shift(p: Pair): Pair {
    Pair({}, p.current)
  }

  predicate Has(hash: Hash, p: Pair, item: Text) {
    hash(item) <= p.current || hash(item) <= p.previous
  }

  predicate Covers(p: Pair, q: Pair) {
    q.current <= p.current && q.previous <= p.previous
  }

  /** One event at the coordinator: a tombstoned entry was never applied. */
  function ExactStep(hash: Hash, p: Pair, e: Event): Pair {
    match e
    case Entry(_, _, item) => AddItem(hash, p, item)
    case Tombstone(_, _, _) => p
    case Rotate(_, _) => Shift(p)
  }

  /** One event at a node: tombstones travel as plain entries and are applied. */
  function NodeStep(hash: Hash, p: Pair, e: Event): Pair {
    match e
    case Entry(_, _, item) => AddItem(hash, p, item)
    case Tombstone(_, _, item) => AddItem(hash, p, item)
    case Rotate(_, _) => Shift(p)
  }

  function Exact(hash: Hash, p: Pair, log: seq<Event>): Pair {
    if log == [] then p else ExactStep(hash, Exact(hash, p, log[..|log| - 1]), log[|log| - 1])
  }

  function Replicated(hash: Hash, p: Pair, log: seq<Event>): Pair {
    if log == [] then p else NodeStep(hash, Replicated(hash, p, log[..|log| - 1]), log[|log| - 1])
  }

  predicate NoTombstone(log: seq<Event>) {
    forall i :: 0 <= i < |log| ==> !log[i].Tombstone?
  }

  lemma ExactAppend(hash: Hash, p: Pair, log: seq<Event>, e: Event)
    ensures Exact(hash, p, log + [e]) == ExactStep(hash, Exact(hash, p, log), e)
  {
    assert (log + [e])[..|log|] == log;
  }

  lemma ReplicatedAppend(hash: Hash, p: Pair, log: seq<Event>, e: Event)
    ensures Replicated(hash, p, log + [e]) == NodeStep(hash, Replicated(hash, p, log), e)
  {
    assert (log + [e])[..|log|] == log;
  }

  lemma {:induction false} ExactSplit(hash: Hash, p: Pair, log: seq<Event>, n: nat)
    requires n <= |log|
    ensures Exact(hash, p, log) == Exact(hash, Exact(hash, p, log[..n]), log[n..])
  {
    if n < |log| {
      var front := log[..|log| - 1];
      ExactSplit(hash, p, front, n);
      assert front[..n] == log[..n];
      assert log[n..][..|log| - n - 1] == front[n..];
    } else {
      assert log[..n] == log;
    }
  }

  lemma {:induction false} ReplicatedSplit(hash: Hash, p: Pair, log: seq<Event>, n: nat)
    requires n <= |log|
    ensures Replicated(hash, p, log) == Replicated(hash, Replicated(hash, p, log[..n]), log[n..])
  {
    if n < |log| {
      var front := log[..|log| - 1];
      ReplicatedSplit(hash, p, front, n);
      assert front[..n] == log[..n];
      assert log[n..][..|log| - n - 1] == front[n..];
    } else {
      assert log[..n] == log;
    }
  }

  /** Replication never loses coverage it started with. */
  lemma {:induction false} ReplicatedCoversExact(hash: Hash, p: Pair, q: Pair, log: seq<Event>)
    requires Covers(p, q)
    ensures Covers(Replicated(hash, p, log), Exact(hash, q, log))
  {
    if log != [] {
      ReplicatedCoversExact(hash, p, q, log[..|log| - 1]);
    }
  }

  /** Without tombstones, equal filters stay equal. */
  lemma {:induction false} ReplicatedIsExact(hash: Hash, p: Pair, log: seq<Event>)
    requires NoTombstone(log)
    ensures Replicated(hash, p, log) == Exact(hash, p, log)
  {
    if log != [] {
      ReplicatedIsExact(hash, p, log[..|log| - 1]);
    }
  }

  /** Between rotations extra current bits stay extra current bits. */
  lemma {:induction false} ExtraBitsStay(hash: Hash, p: Pair, extra: Bits, log: seq<Event>)
    requires NoRotate(log)
    ensures Replicated(hash, p.(current := p.current + extra), log)
      == Replicated(hash, p, log).(current := Replicated(hash, p, log).current + extra)
    ensures Replicated(hash, p, log).previous == p.previous
  {
    if log != [] {
      ExtraBitsStay(hash, p, extra, log[..|log| - 1]);
    }
  }

  lemma {:induction false} ExactWithoutRotate(hash: Hash, p: Pair, log: seq<Event>)
    requires NoRotate(log)
    ensures Exact(hash, p, log).previous == p.previous
    ensures p.current <= Exact(hash, p, log).current
  {
    if log != [] {
      ExactWithoutRotate(hash, p, log[..|log| - 1]);
    }
  }

  /** An entry still inside the two newest windows is found. */
  lemma {:induction false} EntryIsFound(hash: Hash, p: Pair, log: seq<Event>, i: nat)
    requires i < |log| && log[i].Entry?
    ensures NoRotate(log[i..]) ==> hash(log[i].item) <= Exact(hash, p, log).current
    ensures Gen(log) <= Gen(log[..i]) + 1 && Generations(log) ==> Has(hash, Exact(hash, p, log), log[i].item)
  {
    var front, last := log[..|log| - 1], log[|log| - 1];
    if i < |front| {
      EntryIsFound(hash, p, front, i);
      assert front[..i] == log[..i];
      assert log[i..] == front[i..] + [last];
      NoRotateAppend(front[i..], last);
      if Generations(log) {
        GenerationsPrefix(log, |front|);
        GenMonotone(front, i);
        assert Gen(log) == if last.Rotate? then Gen(front) + 1 else Gen(front);
      }
    }
  }
}
