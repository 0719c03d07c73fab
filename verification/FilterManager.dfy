// Core's filter manager with its backup files (unbuffered write-ahead file): two filters in
// memory, two blobs and one text file on disk, every file operation recorded in `trace`.
module FilterManager {
  import opened Texts
  import opened Filters
  import opened CoreDisk

  const MAX_SATURATION_RATIO: nat := 10

  datatype Result = Ok | ValidationError | InternalError

  /** The checks of add() and applyEntry(), in their order. */
  function CheckItem(item: Text): Result {
    if Blank(item) then ValidationError
    else if CARRIAGE_RETURN in item || NEWLINE in item || NUL in item then ValidationError
    else if |item| > MAX_ITEM_LENGTH then ValidationError
    else Ok
  }

  /** The coordinator's check and core's accept the same items. */
  lemma ChecksAgree(item: Text)
    ensures CheckItem(item) == Ok <==> ValidItem(item)
  {
  }

  class BloomFilterManager {
    const hash: Hash
    const numItems: nat
    // files
    var currentBlob: Option<Bits>
    var previousBlob: Option<Bits>
    var tempFile: Text
    // memory
    var current: Bits
    var previous: Bits
    var currentInsertions: nat
    var shuttingDown: bool
    ghost var items: seq<Text>
    ghost var trace: seq<CoreDisk>
    ghost var restored: Filters.Pair   // the filters at the start ...
    ghost var history: seq<Op>         // ... and the insertions and rotations since

    ghost function Disk(): CoreDisk
      reads this
    {
      CoreDisk(currentBlob, previousBlob, items)
    }

    ghost function Pair(): Pair
      reads this
    {
      Filters.Pair(current, previous)
    }

    /** The text file holds the items, one a line, and the files restore to what is in memory. */
    ghost predicate Valid()
      reads this
    {
      && tempFile == Unlines(items)
      && (forall i :: 0 <= i < |items| ==> ValidItem(items[i]))
      && Restore(hash, Disk()) == Pair()
      && Pair() == Fold(hash, restored, history)
    }

    /** Starts on the files an earlier process left behind. */
    constructor (hash: Hash, numItems: nat, d: CoreDisk, tempFile: Text)
      requires tempFile == Unlines(d.temp) && forall i :: 0 <= i < |d.temp| ==> ValidItem(d.temp[i])
      ensures Valid() && this.hash == hash && this.numItems == numItems
      ensures Disk() == d && Pair() == Restore(hash, d) && trace == []
      ensures currentInsertions == 0 && !shuttingDown && history == []
    {
      this.hash := hash;
      this.numItems := numItems;
      this.currentBlob := d.current;
      this.previousBlob := d.previous;
      this.tempFile := tempFile;
      this.current := if d.current.Some? then d.current.value else {};
      this.previous := if d.previous.Some? then d.previous.value else {};
      this.currentInsertions := 0;
      this.shuttingDown := false;
      this.items := d.temp;
      this.trace := [];
      this.history := [];
      this.restored := EMPTY;
      new;
      if tempFile != [] {
        RestoreTemp();
      }
      restored := Pair();
    }

    /** Adds every non-blank line of the write-ahead file to the current filter. */
    method RestoreTemp()
      requires tempFile == Unlines(items) && forall i :: 0 <= i < |items| ==> ValidItem(items[i])
      modifies this`current
      ensures current == old(current) + ItemBits(hash, items)
    {
      hide ValidItem;
      var lines := Split(tempFile, NEWLINE);
      assert lines == items + [[]] by {
        LinesOfItems(items);
      }
      var i := 0;
      while i < |lines|
        invariant 0 <= i <= |lines|
        invariant current == old(current) + ItemBits(hash, items[..if i <= |items| then i else |items|])
      {
        if i < |items| {
          ItemIsNotBlank(items[i]);
          ItemBitsAppend(hash, items[..i], items[i]);
          assert items[..i + 1] == items[..i] + [items[i]];
        }
        if !Blank(lines[i]) {
          current := current + hash(lines[i]);
        }
        i := i + 1;
      }
      assert items[..|items|] == items;
    }

    method BackupItem(item: Text)
      requires ValidItem(item) && tempFile == Unlines(items) && forall i :: 0 <= i < |items| ==> ValidItem(items[i])
      modifies this`tempFile, this`items, this`trace
      ensures tempFile == Unlines(items) && items == old(items) + [item]
      ensures trace == old(trace) + [Disk()]
    {
      UnlinesAppend(items, item);
      tempFile := tempFile + item + [NEWLINE];
      items := items + [item];
      trace := trace + [Disk()];
    }

    /** Inserts an item, write-ahead file first; refused when invalid, shutting down or saturated. */
    method Add(item: Text) returns (r: Result)
      requires Valid()
      modifies this`current, this`currentInsertions, this`tempFile, this`items, this`trace, this`history
      ensures Valid()
      ensures r == (if CheckItem(item) != Ok then ValidationError
                    else if old(shuttingDown) then InternalError
                    else if old(currentInsertions) > 10 * numItems then InternalError
                    else Ok)
      ensures r == Ok ==>
        && Pair() == After(hash, old(Pair()), Insert(item)) && currentInsertions == old(currentInsertions) + 1
        && trace == old(trace) + Images(old(Pair()), old(Disk()), Insert(item)) && Disk() == trace[|trace| - 1]
        && history == old(history) + [Insert(item)]
      ensures r != Ok ==>
        Pair() == old(Pair()) && Disk() == old(Disk()) && trace == old(trace) && history == old(history)
    {
      if Blank(item) {
        return ValidationError;
      }
      if CARRIAGE_RETURN in item || NEWLINE in item || NUL in item {
        return ValidationError;
      }
      if |item| > MAX_ITEM_LENGTH {
        return ValidationError;
      }
      if shuttingDown {
        return InternalError;
      }
      if currentInsertions > numItems * MAX_SATURATION_RATIO {
        return InternalError;
      }
      Insertion(item);
      return Ok;
    }

    /** A replicated entry: saturation never blocks it. */
    method ApplyEntry(item: Text) returns (r: Result)
      requires Valid()
      modifies this`current, this`currentInsertions, this`tempFile, this`items, this`trace, this`history
      ensures Valid()
      ensures r == (if CheckItem(item) != Ok then ValidationError else if old(shuttingDown) then InternalError else Ok)
      ensures r == Ok ==>
        && Pair() == After(hash, old(Pair()), Insert(item)) && currentInsertions == old(currentInsertions) + 1
        && trace == old(trace) + Images(old(Pair()), old(Disk()), Insert(item)) && Disk() == trace[|trace| - 1]
        && history == old(history) + [Insert(item)]
      ensures r != Ok ==>
        Pair() == old(Pair()) && Disk() == old(Disk()) && trace == old(trace) && history == old(history)
    {
      if Blank(item) {
        return ValidationError;
      }
      if CARRIAGE_RETURN in item || NEWLINE in item || NUL in item {
        return ValidationError;
      }
      if |item| > MAX_ITEM_LENGTH {
        return ValidationError;
      }
      if shuttingDown {
        return InternalError;
      }
      Insertion(item);
      return Ok;
    }

    method Insertion(item: Text)
      requires Valid() && ValidItem(item)
      modifies this`current, this`currentInsertions, this`tempFile, this`items, this`trace, this`history
      ensures Valid() && Pair() == After(hash, old(Pair()), Insert(item))
        && currentInsertions == old(currentInsertions) + 1
      ensures trace == old(trace) + Images(old(Pair()), old(Disk()), Insert(item)) && Disk() == trace[|trace| - 1]
      ensures history == old(history) + [Insert(item)]
    {
      ItemBitsAppend(hash, items, item);
      BackupItem(item);
      current := current + hash(item);
      currentInsertions := currentInsertions + 1;
      FoldAppend(hash, restored, history, Insert(item));
      history := history + [Insert(item)];
    }

    /** Blob written beside and renamed into place, then the write-ahead file is cleared. */
    method BackupLocal()
      requires Valid()
      modifies this`currentBlob, this`tempFile, this`items, this`trace
      ensures Valid()
      ensures trace == old(trace) + Images(old(Pair()), old(Disk()), PeriodicBackup) && Disk() == trace[|trace| - 1]
    {
      currentBlob := Some(current);
      trace := trace + [Disk()];
      tempFile := [];
      items := [];
      trace := trace + [Disk()];
    }

    /** Persist, promote the blob, swap the filters. */
    method Rotate()
      requires Valid()
      modifies this
      ensures Valid() && Pair() == After(hash, old(Pair()), Rotation) && currentInsertions == 0
      ensures trace == old(trace) + Images(old(Pair()), old(Disk()), Rotation) && Disk() == trace[|trace| - 1]
      ensures shuttingDown == old(shuttingDown) && history == old(history) + [Rotation]
    {
      hide Fold, Unlines, ValidItem;
      FoldAppend(hash, restored, history, Rotation);
      NoItemsNoText();
      BackupLocal();
      if currentBlob.Some? {
        previousBlob := currentBlob;
        currentBlob := None;
        trace := trace + [Disk()];
      }
      previous := current;
      current := {};
      currentInsertions := 0;
      history := history + [Rotation];
    }

    /** A rotation outside the schedule; false is the exception of a manager that is shutting down. */
    method RotateOnDemand() returns (ok: bool)
      requires Valid()
      modifies this
      ensures Valid() && ok == !old(shuttingDown) && shuttingDown == old(shuttingDown)
      ensures ok ==> Pair() == After(hash, old(Pair()), Rotation) && currentInsertions == 0
      ensures !ok ==> Pair() == old(Pair()) && Disk() == old(Disk())
      ensures history == old(history) + if ok then [Rotation] else []
    {
      if shuttingDown {
        return false;
      }
      Rotate();
      return true;
    }

    /**
     * A check: blank values are refused, anything else is looked up in both filters. A value is found
     * exactly when all its bits came in since the last rotation, or all in the window before it; every
     * value this manager took since its start is found until the second rotation after it.
     */
    method Contains(value: Text) returns (r: Option<bool>)
      requires Valid()
      ensures r == None <==> Blank(value)
      ensures r.Some? ==> r.value == Has(hash, Pair(), value)
      ensures r.Some? ==> (r.value <==> InOneWindow(value, hash, restored, history))
      ensures r.Some? && TakenLately(history, value) ==> r.value
    {
      hide InOneWindow, TakenLately, Fold, Restore, Unlines, ValidItem, Blank;
      if Blank(value) {
        return None;
      }
      FoundIsInOneWindow(hash, restored, history, value);
      if TakenLately(history, value) {
        TakenIsFound(hash, restored, history, value);
      }
      r := Some(hash(value) <= current || hash(value) <= previous);
    }
  }

  /** Bit b came into the filters k rotations ago: with an insertion, or with what was restored at the start. */
  ghost predicate FromWindow(b: nat, hash: Hash, p: Filters.Pair, history: seq<Op>, k: nat) {
    || (b in p.current && RotationCount(history) == k)
    || (b in p.previous && RotationCount(history) + 1 == k)
    || exists i :: 0 <= i < |history| && history[i].Insert? && RotationCount(history[i + 1..]) == k
         && b in hash(history[i].item)
  }

  /** All bits of the value came in since the last rotation, or all of them in the window before. */
  ghost predicate InOneWindow(value: Text, hash: Hash, p: Filters.Pair, history: seq<Op>) {
    || (forall b <- hash(value) :: FromWindow(b, hash, p, history, 0))
    || (forall b <- hash(value) :: FromWindow(b, hash, p, history, 1))
  }

  lemma {:induction false} RotationCountAppend(ops: seq<Op>, op: Op)
    ensures RotationCount(ops + [op]) == RotationCount(ops) + if op.Rotation? then 1 else 0
    decreases |ops|
  {
    if ops == [] {
      assert (ops + [op])[1..] == [];
    } else {
      RotationCountAppend(ops[1..], op);
      assert (ops + [op])[1..] == ops[1..] + [op];
    }
  }

  /** A rotation moves every bit one window back, an insertion adds the item's bits to the newest window. */
  lemma WindowAppend(b: nat, hash: Hash, p: Filters.Pair, history: seq<Op>, op: Op, k: nat)
    ensures FromWindow(b, hash, p, history + [op], k)
      <==> if op.Rotation? then k > 0 && FromWindow(b, hash, p, history, k - 1)
           else FromWindow(b, hash, p, history, k) || (k == 0 && op.Insert? && b in hash(op.item))
  {
    hide RotationCount;
    var more := history + [op];
    RotationCountAppend(history, op);
    forall i | 0 <= i < |history|
      ensures more[i] == history[i]
        && RotationCount(more[i + 1..]) == RotationCount(history[i + 1..]) + if op.Rotation? then 1 else 0
    {
      RotationCountAppend(history[i + 1..], op);
      assert more[i + 1..] == history[i + 1..] + [op];
    }
    assert more[|history|] == op && RotationCount(more[|history| + 1..]) == 0 by { NoRotations(more); }
  }

  lemma NoRotations(ops: seq<Op>)
    ensures RotationCount(ops[|ops|..]) == 0
  {
  }

  /** Each filter holds exactly the bits of its window. */
  lemma {:induction false} FiltersAreWindows(hash: Hash, p: Filters.Pair, history: seq<Op>, b: nat)
    ensures b in Fold(hash, p, history).current <==> FromWindow(b, hash, p, history, 0)
    ensures b in Fold(hash, p, history).previous <==> FromWindow(b, hash, p, history, 1)
    decreases |history|
  {
    if history != [] {
      var front, op := history[..|history| - 1], history[|history| - 1];
      assert history == front + [op];
      FiltersAreWindows(hash, p, front, b);
      hide FromWindow, Fold;
      FoldAppend(hash, p, front, op);
      WindowAppend(b, hash, p, front, op, 0);
      WindowAppend(b, hash, p, front, op, 1);
    }
  }

  /** A value is found exactly when all its bits came in within one of the two newest windows. */
  lemma FoundIsInOneWindow(hash: Hash, p: Filters.Pair, history: seq<Op>, value: Text)
    ensures Has(hash, Fold(hash, p, history), value) <==> InOneWindow(value, hash, p, history)
  {
    hide FromWindow, Fold;
    forall b ensures b in Fold(hash, p, history).current <==> FromWindow(b, hash, p, history, 0) {
      FiltersAreWindows(hash, p, history, b);
    }
    forall b ensures b in Fold(hash, p, history).previous <==> FromWindow(b, hash, p, history, 1) {
      FiltersAreWindows(hash, p, history, b);
    }
  }

  /** A value with a bit that nothing restored and nothing inserted has is not found. */
  lemma StrangerIsNotFound(hash: Hash, p: Filters.Pair, history: seq<Op>, value: Text, b: nat)
    requires b in hash(value) && b !in p.current && b !in p.previous
    requires forall i :: 0 <= i < |history| && history[i].Insert? ==> b !in hash(history[i].item)
    ensures !Has(hash, Fold(hash, p, history), value) && !InOneWindow(value, hash, p, history)
  {
    FoundIsInOneWindow(hash, p, history, value);
  }

  /** An insertion of the value has seen at most one rotation since. */
  ghost predicate TakenLately(history: seq<Op>, value: Text) {
    exists i :: 0 <= i < |history| && history[i] == Insert(value) && RotationCount(history[i + 1..]) <= 1
  }

  lemma TakenIsFound(hash: Hash, p: Pair, history: seq<Op>, value: Text)
    requires TakenLately(history, value)
    ensures Has(hash, Fold(hash, p, history), value)
  {
    hide Fold, RotationCount;
    var i :| 0 <= i < |history| && history[i] == Insert(value) && RotationCount(history[i + 1..]) <= 1;
    FoldAppend(hash, p, history[..i], history[i]);
    assert history[..i] + [history[i]] == history[..i + 1];
    FoldSplit(hash, p, history[..i + 1], history[i + 1..]);
    assert history[..i + 1] + history[i + 1..] == history;
    AcceptedIsFound(hash, Fold(hash, p, history[..i + 1]), value, history[i + 1..]);
  }

  lemma NoItemsNoText()
    ensures Unlines([]) == []
  {
  }

  lemma ItemIsNotBlank(item: Text)
    requires ValidItem(item)
    ensures !Blank(item)
  {
  }

  lemma LinesOfItems(items: seq<Text>)
    requires forall i :: 0 <= i < |items| ==> ValidItem(items[i])
    ensures Split(Unlines(items), NEWLINE) == items + [[]]
  {
    SplitUnlines(items, []);
    assert Unlines(items) + [] == Unlines(items);
  }

  /** No false negatives: an accepted item is found until the second rotation after it. */
  lemma {:induction false} AcceptedIsFound(hash: Hash, p: Pair, item: Text, ops: seq<Op>)
    requires hash(item) <= p.current
    requires RotationCount(ops) <= 1
    ensures Has(hash, Fold(hash, p, ops), item)
    decreases |ops|
  {
    if ops != [] {
      if ops[0].Rotation? {
        StaysInPrevious(hash, After(hash, p, ops[0]), item, ops[1..]);
      } else {
        AcceptedIsFound(hash, After(hash, p, ops[0]), item, ops[1..]);
      }
    }
  }

  function RotationCount(ops: seq<Op>): nat
    decreases |ops|
  {
    if ops == [] then 0 else (if ops[0].Rotation? then 1 else 0) + RotationCount(ops[1..])
  }

  lemma {:induction false} StaysInPrevious(hash: Hash, p: Pair, item: Text, ops: seq<Op>)
    requires hash(item) <= p.previous && RotationCount(ops) == 0
    ensures hash(item) <= Fold(hash, p, ops).previous
    decreases |ops|
  {
    if ops != [] {
      StaysInPrevious(hash, After(hash, p, ops[0]), item, ops[1..]);
    }
  }
}
