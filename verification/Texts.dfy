// Strings as the program sees them: sequences of UTF-16 code units, with the few
// library operations (indexOf, split, String(n), Number(s), trim) its code relies on.
module Texts {

  datatype Option<+T> = None | Some(value: T)

  type CodeUnit = u: int | 0 <= u < 0x1_0000

  type Text = seq<CodeUnit>

  const NUL: CodeUnit := 0
  const NEWLINE: CodeUnit := 10
  const CARRIAGE_RETURN: CodeUnit := 13
  const ZERO: CodeUnit := 48
  const NINE: CodeUnit := 57
  const COLON: CodeUnit := 58

  /** Position of the first `c` at or after `from`, or -1. */
  function IndexOf(t: Text, c: CodeUnit, from: nat): (i: int)
    requires from <= |t|
    ensures i == -1 || from <= i < |t|
    ensures i != -1 ==> t[i] == c
    ensures forall j :: from <= j < (if i == -1 then |t| else i) ==> t[j] != c
    decreases |t| - from
  {
    if from == |t| then -1
    else if t[from] == c then from
    else IndexOf(t, c, from + 1)
  }

  lemma IndexOfIs(t: Text, c: CodeUnit, from: nat, i: nat)
    requires from <= i < |t| && t[i] == c
    requires forall j :: from <= j < i ==> t[j] != c
    ensures IndexOf(t, c, from) == i
  {
    assert IndexOf(t, c, from) != -1;
  }

  /** `t.split(separator)`. */
  function Split(t: Text, separator: CodeUnit): (parts: seq<Text>)
    decreases |t|
  {
    var i := IndexOf(t, separator, 0);
    if i == -1 then [t] else [t[..i]] + Split(t[i + 1..], separator)
  }

  /** The file holding `lines`, each ended by a line break. */
  function Unlines(lines: seq<Text>): Text {
    if lines == [] then [] else lines[0] + [NEWLINE] + Unlines(lines[1..])
  }

  lemma {:induction false} UnlinesAppend(lines: seq<Text>, line: Text)
    ensures Unlines(lines + [line]) == Unlines(lines) + line + [NEWLINE]
  {
    if lines == [] {
      assert Unlines([line]) == line + [NEWLINE] + Unlines([]);
    } else {
      UnlinesAppend(lines[1..], line);
      assert (lines + [line])[1..] == lines[1..] + [line];
    }
  }

  lemma SplitFirst(line: Text, rest: Text)
    requires NEWLINE !in line
    ensures Split(line + [NEWLINE] + rest, NEWLINE) == [line] + Split(rest, NEWLINE)
  {
    var t := line + [NEWLINE] + rest;
    assert forall j :: 0 <= j < |line| ==> t[j] == line[j];
    IndexOfIs(t, NEWLINE, 0, |line|);
    assert t[..|line|] == line && t[|line| + 1..] == rest;
  }

  lemma UnlinesFirst(lines: seq<Text>, rest: Text)
    requires lines != []
    ensures Unlines(lines) + rest == lines[0] + [NEWLINE] + (Unlines(lines[1..]) + rest)
  {
  }

  /** Splitting a file gives back the lines written to it, then whatever follows the last break. */
  lemma {:induction false} SplitUnlines(lines: seq<Text>, rest: Text)
    requires forall l <- lines :: NEWLINE !in l
    requires NEWLINE !in rest
    ensures Split(Unlines(lines) + rest, NEWLINE) == lines + [rest]
  {
    if lines == [] {
      assert Unlines(lines) + rest == rest;
    } else {
      hide Split;
      var tail := Unlines(lines[1..]) + rest;
      SplitUnlines(lines[1..], rest);
      assert lines[0] in lines;
      SplitFirst(lines[0], tail);
      UnlinesFirst(lines, rest);
      assert [lines[0]] + (lines[1..] + [rest]) == lines + [rest];
    }
  }

  predicate Digits(t: Text) {
    forall i :: 0 <= i < |t| ==> ZERO <= t[i] <= NINE
  }

  /** `String(n)`. */
  function Decimal(n: nat): (t: Text)
    ensures t != [] && Digits(t)
  {
    if n < 10 then [ZERO + n] else Decimal(n / 10) + [ZERO + n % 10]
  }

  function DecimalValue(t: Text): nat
    requires Digits(t)
  {
    if t == [] then 0 else 10 * DecimalValue(t[..|t| - 1]) + (t[|t| - 1] - ZERO)
  }

  lemma {:induction false} DecimalRoundTrip(n: nat)
    ensures DecimalValue(Decimal(n)) == n
  {
    if n >= 10 {
      DecimalRoundTrip(n / 10);
      assert Decimal(n)[..|Decimal(n)| - 1] == Decimal(n / 10);
    } else {
      assert Decimal(n)[..0] == [];
    }
  }

  /** `Number(t)` on decimal digits (the empty string is 0); every other text counts as NaN. */
  function ToNumber(t: Text): Option<nat> {
    if Digits(t) then Some(DecimalValue(t)) else None
  }

  /** The code units `String.prototype.trim` removes (section 12.2 and 12.3 of ECMA-262). */
  predicate IsWhiteSpace(u: CodeUnit) {
    || 9 <= u <= 13 || u == 0x20 || u == 0xA0 || u == 0x1680 || 0x2000 <= u <= 0x200A
    || u == 0x2028 || u == 0x2029 || u == 0x202F || u == 0x205F || u == 0x3000 || u == 0xFEFF
  }

  /** `t.trim() === ''`. */
  predicate Blank(t: Text) {
    forall u <- t :: IsWhiteSpace(u)
  }

  const MAX_ITEM_LENGTH := 4096

  /** The coordinator's item check: `itemValidationError(item) === null`. */
  predicate ValidItem(item: Text) {
    && !Blank(item)
    && |item| <= MAX_ITEM_LENGTH
    && NUL !in item && NEWLINE !in item && CARRIAGE_RETURN !in item
  }
}
