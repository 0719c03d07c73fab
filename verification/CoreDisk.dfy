// Core's backup files as values: what each manager operation does to them, one file
// operation at a time, and what a restart reads back.
module CoreDisk {
  import opened Texts
  import opened Filters

  // The two blobs and the items of the write-ahead file.
  datatype CoreDisk = CoreDisk(current: Option<Bits>, previous: Option<Bits>, temp: seq<Text>)

  function OrEmpty(b: Option<Bits>): Bits { if b.Some? then b.value else {} }

  /** Bits of the items of a write-ahead file. */
  function ItemBits(hash: Hash, items: seq<Text>): Bits {
    if items == [] then {} else ItemBits(hash, items[..|items| - 1]) + hash(items[|items| - 1])
  }

  /** What core's restore builds from its files. */
  function Restore(hash: Hash, d: CoreDisk): Pair {
    Pair(OrEmpty(d.current) + ItemBits(hash, d.temp), OrEmpty(d.previous))
  }

  datatype Op = Insert(item: Text) | PeriodicBackup | Rotation

  /** The filters in memory after an operation. */
  function After(hash: Hash, p: Pair, op: Op): Pair {
    match op
    case Insert(item) => AddItem(hash, p, item)
    case PeriodicBackup => p
    case Rotation => Shift(p)
  }

  /** The files after each file operation of `op`, in order. */
  function Images(p: Pair, d: CoreDisk, op: Op): seq<CoreDisk> {
    match op
    case Insert(item) => [d.(temp := d.temp + [item])]
    case PeriodicBackup => [d.(current := Some(p.current)), d.(current := Some(p.current), temp := [])]
    case Rotation =>
      [d.(current := Some(p.current)),
       d.(current := Some(p.current), temp := []),
       CoreDisk(None, Some(p.current), [])]
  }

  /** The files when the process dies after k file operations of `op`. */
  function ImageAt(p: Pair, d: CoreDisk, op: Op, k: nat): CoreDisk
    requires k <= |Images(p, d, op)|
  {
    if k == 0 then d else Images(p, d, op)[k - 1]
  }

  lemma ItemBitsAppend(hash: Hash, items: seq<Text>, item: Text)
    ensures ItemBits(hash, items + [item]) == ItemBits(hash, items) + hash(item)
  {
    assert (items + [item])[..|items|] == items;
  }

  /**
   * Crash atomicity: whichever file operation a crash follows, a restart finds the filters of
   * just before or of just after the interrupted operation.
   */
  lemma CrashIsAtomic(hash: Hash, p: Pair, d: CoreDisk, op: Op, k: nat)
    requires Restore(hash, d) == p && k <= |Images(p, d, op)|
    ensures Restore(hash, ImageAt(p, d, op, k)) == if k == |Images(p, d, op)| then After(hash, p, op) else p
  {
    match op
    case Insert(item) => ItemBitsAppend(hash, d.temp, item);
    case _ =>
  }

  // An operation, and after how many of its file operations the process died, if it did.
  datatype Step = Step(op: Op, crash: Option<nat>)

  /** Operations one at a time, each possibly cut short by a crash and a restart. */
  function Live(hash: Hash, p: Pair, d: CoreDisk, history: seq<Step>): (Pair, CoreDisk)
    decreases |history|
  {
    if history == [] then (p, d)
    else
      var Step(op, crash) := history[0];
      var total := |Images(p, d, op)|;
      if crash.None? || crash.value > total then
        Live(hash, After(hash, p, op), ImageAt(p, d, op, total), history[1..])
      else
        var left := ImageAt(p, d, op, crash.value);
        Live(hash, Restore(hash, left), left, history[1..])
  }

  function Fold(hash: Hash, p: Pair, ops: seq<Op>): Pair
    decreases |ops|
  {
    if ops == [] then p else Fold(hash, After(hash, p, ops[0]), ops[1..])
  }

  lemma {:induction false} FoldSplit(hash: Hash, p: Pair, ops: seq<Op>, more: seq<Op>)
    ensures Fold(hash, p, ops + more) == Fold(hash, Fold(hash, p, ops), more)
    decreases |ops|
  {
    if ops == [] {
      assert ops + more == more;
    } else {
      FoldSplit(hash, After(hash, p, ops[0]), ops[1..], more);
      assert (ops + more)[1..] == ops[1..] + more;
    }
  }

  lemma FoldAppend(hash: Hash, p: Pair, ops: seq<Op>, op: Op)
    ensures Fold(hash, p, ops + [op]) == After(hash, Fold(hash, p, ops), op)
  {
    FoldSplit(hash, p, ops, [op]);
    assert [op][1..] == [];
  }

  /** Which operations of a history took effect: all but those cut before their last file operation. */
  function Effective(history: seq<Step>): seq<Op>
    decreases |history|
  {
    if history == [] then []
    else
      var Step(op, crash) := history[0];
      var total := if op.Insert? then 1 else if op.PeriodicBackup? then 2 else 3;
      (if crash.None? || crash.value >= total then [op] else []) + Effective(history[1..])
  }

  /**
   * Over any number of crashes, the filters are those of a run without crashes of exactly the
   * operations that reached their last file operation, and the files always restore to them.
   */
  lemma {:induction false} CrashesOnlyDropCutOperations(hash: Hash, p: Pair, d: CoreDisk, history: seq<Step>)
    requires Restore(hash, d) == p
    ensures var (p', d') := Live(hash, p, d, history);
      Restore(hash, d') == p' && p' == Fold(hash, p, Effective(history))
    decreases |history|
  {
    if history != [] {
      var Step(op, crash) := history[0];
      var total := |Images(p, d, op)|;
      var k := if crash.None? || crash.value > total then total else crash.value;
      CrashIsAtomic(hash, p, d, op, k);
      var left := ImageAt(p, d, op, k);
      CrashesOnlyDropCutOperations(hash, Restore(hash, left), left, history[1..]);
      assert k < total ==> [] + Effective(history[1..]) == Effective(history[1..]);
      assert ([op] + Effective(history[1..]))[1..] == Effective(history[1..]);
    }
  }
}
