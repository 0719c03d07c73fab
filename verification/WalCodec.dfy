// The line format of the canonical log: `<lsn>:E:<len>:<item>`, `<lsn>:T:<len>:<item>`
// and `<lsn>:R:<generation>`, and what a crash in the middle of a line leaves readable.
module WalCodec {
  import opened Texts
  import opened WalSpec

  const LETTER_E: CodeUnit := 69
  const LETTER_R: CodeUnit := 82
  const LETTER_T: CodeUnit := 84

  function Head(lsn: nat, letter: CodeUnit): Text {
    Decimal(lsn) + [COLON, letter, COLON]
  }

  function Sized(item: Text): Text {
    Decimal(|item|) + [COLON] + item
  }

  /** The line appended for an event, without its line break. */
  function Render(e: Event): Text {
    match e
    case Entry(lsn, _, item) => Head(lsn, LETTER_E) + Sized(item)
    case Tombstone(lsn, _, item) => Head(lsn, LETTER_T) + Sized(item)
    case Rotate(lsn, generation) => Head(lsn, LETTER_R) + Decimal(generation)
  }

  /** `<len>:<item>` from position `start`: the item, when its length is the announced one. */
  function ParseSized(line: Text, start: nat): Option<Text>
    requires start <= |line|
  {
    var lenColon := IndexOf(line, COLON, start);
    if lenColon < 0 then None
    else
      var len := ToNumber(line[start..lenColon]);
      var item := line[lenColon + 1..];
      if len.None? || |item| != len.value then None else Some(item)
  }

  /** What follows `<lsn>:<kind>:`. */
  function ParseBody(lsn: nat, kind: Text, line: Text, start: nat, generation: nat): Option<Event>
    requires start <= |line|
  {
    if kind == [LETTER_R] then
      match ToNumber(line[start..])
      case None => None
      case Some(g) => Some(Rotate(lsn, g))
    else if kind == [LETTER_E] || kind == [LETTER_T] then
      match ParseSized(line, start)
      case None => None
      case Some(item) =>
        Some(if kind == [LETTER_E] then Entry(lsn, generation, item) else Tombstone(lsn, generation, item))
    else None
  }

  /** One line of the file whose running generation is `generation`; None when malformed. */
  function ParseLine(line: Text, generation: nat): Option<Event> {
    var first := IndexOf(line, COLON, 0);
    if first <= 0 then None
    else
      var second := IndexOf(line, COLON, first + 1);
      if second < 0 then None
      else
        var lsn := ToNumber(line[..first]);
        if lsn.None? || lsn.value == 0 then None
        else ParseBody(lsn.value, line[first + 1..second], line, second + 1, generation)
  }

  /** The lines as they stand on disk: `7:E:2:ab`, `7:T:2:ab` and `12:R:3`. */
  lemma LinesOnDisk()
    ensures Render(Entry(7, 1, [97, 98])) == [55, 58, 69, 58, 50, 58, 97, 98]
    ensures Render(Tombstone(7, 1, [97, 98])) == [55, 58, 84, 58, 50, 58, 97, 98]
    ensures Render(Rotate(12, 3)) == [49, 50, 58, 82, 58, 51]
  {
    assert Decimal(7) == [55] && Decimal(2) == [50] && Decimal(3) == [51] && Decimal(12) == [49, 50];
  }

  /** Parsing a written line gives back its event, whatever colons the item holds. */
  lemma ParseRendered(e: Event, generation: nat)
    requires e.lsn > 0
    requires e.Rotate? || e.generation == generation
    ensures ParseLine(Render(e), generation) == Some(e)
  {
    var line := Render(e);
    var letter := if e.Rotate? then LETTER_R else if e.Entry? then LETTER_E else LETTER_T;
    var start := |Head(e.lsn, letter)|;
    HeadParses(line, e.lsn, letter, generation);
    if e.Rotate? {
      DecimalRoundTrip(e.generation);
      assert line[start..] == Decimal(e.generation);
    } else {
      assert line[start..] == Sized(e.item);
      SizedParses(line, start, e.item);
    }
  }

  /**
   * Only such lines are read as events: a positive number, the letter, and a length that is the
   * item's or the generation, all in decimal digits.
   */
  lemma ParsedHasForm(line: Text, generation: nat, e: Event) returns (n: Text, m: Text)
    requires ParseLine(line, generation) == Some(e)
    ensures n != [] && Digits(n) && DecimalValue(n) == e.lsn > 0 && Digits(m)
    ensures !e.Rotate? ==> e.generation == generation && DecimalValue(m) == |e.item|
    ensures e.Entry? ==> line == n + [COLON, LETTER_E, COLON] + m + [COLON] + e.item
    ensures e.Tombstone? ==> line == n + [COLON, LETTER_T, COLON] + m + [COLON] + e.item
    ensures e.Rotate? ==> DecimalValue(m) == e.generation && line == n + [COLON, LETTER_R, COLON] + m
  {
    hide *;
    var kind, start := [], 0;
    n, kind, start := HeadHasForm(line, generation, e);
    m := BodyHasForm(DecimalValue(n), kind, line, start, generation, e);
    var letter := if e.Rotate? then LETTER_R else if e.Entry? then LETTER_E else LETTER_T;
    Joined(n, letter, line[start..]);
    if !e.Rotate? {
      Assembled(n + [COLON, letter, COLON], m, e.item);
    }
  }

  lemma HeadHasForm(line: Text, generation: nat, e: Event) returns (n: Text, kind: Text, start: nat)
    requires ParseLine(line, generation) == Some(e)
    ensures n != [] && Digits(n) && DecimalValue(n) > 0 && start <= |line|
    ensures line == n + [COLON] + (kind + [COLON] + line[start..])
    ensures ParseBody(DecimalValue(n), kind, line, start, generation) == Some(e)
  {
    hide ParseBody, DecimalValue;
    var first := IndexOf(line, COLON, 0);
    var second := IndexOf(line, COLON, first + 1);
    n, kind, start := line[..first], line[first + 1..second], second + 1;
    hide ParseLine, IndexOf, ToNumber, Digits;
    var tail := line[first + 1..];
    CutAt(line, first);
    CutAt(tail, second - first - 1);
    assert tail[second - first..] == line[start..] && tail[..second - first - 1] == kind;
  }

  lemma CutAt(line: Text, i: nat)
    requires i < |line| && line[i] == COLON
    ensures line == line[..i] + [COLON] + line[i + 1..]
  {
  }

  lemma Joined(n: Text, letter: CodeUnit, rest: Text)
    ensures n + [COLON] + ([letter] + [COLON] + rest) == n + [COLON, letter, COLON] + rest
  {
  }

  lemma Assembled(head: Text, m: Text, item: Text)
    ensures head + (m + [COLON] + item) == head + m + [COLON] + item
  {
  }

  lemma BodyHasForm(lsn: nat, kind: Text, line: Text, start: nat, generation: nat, e: Event) returns (m: Text)
    requires start <= |line| && ParseBody(lsn, kind, line, start, generation) == Some(e)
    ensures e.lsn == lsn && Digits(m)
    ensures kind == [if e.Rotate? then LETTER_R else if e.Entry? then LETTER_E else LETTER_T]
    ensures e.Rotate? ==> line[start..] == m && DecimalValue(m) == e.generation
    ensures !e.Rotate? ==>
      e.generation == generation && line[start..] == m + [COLON] + e.item && DecimalValue(m) == |e.item|
  {
    if e.Rotate? {
      m := line[start..];
    } else {
      var third := IndexOf(line, COLON, start);
      m := line[start..third];
      CutAt(line[start..], third - start);
      assert line[start..][..third - start] == m && line[start..][third - start + 1..] == line[third + 1..];
    }
  }

  /** A line that starts with a complete head is decided by what follows the head. */
  lemma HeadParses(line: Text, lsn: nat, letter: CodeUnit, generation: nat)
    requires Head(lsn, letter) <= line && letter != COLON && lsn > 0
    ensures ParseLine(line, generation) == ParseBody(lsn, [letter], line, |Head(lsn, letter)|, generation)
  {
    var d := Decimal(lsn);
    var n := |d|;
    assert forall i :: 0 <= i < n + 3 ==> line[i] == Head(lsn, letter)[i];
    assert line[..n] == d;
    assert line[n + 1..n + 2] == [letter];
    IndexOfIs(line, COLON, 0, n);
    IndexOfIs(line, COLON, n + 1, n + 2);
    DecimalRoundTrip(lsn);
  }

  /** A line cut before the end of its head is rejected. */
  lemma TornHeadIsRejected(line: Text, lsn: nat, letter: CodeUnit, generation: nat)
    requires line < Head(lsn, letter) && letter != COLON
    ensures ParseLine(line, generation) == None
  {
    var d := Decimal(lsn);
    assert forall i :: 0 <= i < |line| ==> line[i] == Head(lsn, letter)[i];
    if |line| > |d| {
      IndexOfIs(line, COLON, 0, |d|);
    }
  }

  lemma SizedParses(line: Text, start: nat, item: Text)
    requires start <= |line| && line[start..] == Sized(item)
    ensures ParseSized(line, start) == Some(item)
  {
    SizedField(line, start, item, |Sized(item)|);
    assert line[start + |Decimal(|item|)| + 1..] == item;
  }

  /** Cut after its colon, a sized field still announces the full length. */
  lemma SizedField(line: Text, start: nat, item: Text, cut: nat)
    requires start <= |line| && |Decimal(|item|)| < cut <= |Sized(item)|
    requires line[start..] == Sized(item)[..cut]
    ensures var at := start + |Decimal(|item|)|;
      IndexOf(line, COLON, start) == at && ToNumber(line[start..at]) == Some(|item|)
  {
    var d := Decimal(|item|);
    assert forall i :: 0 <= i < cut ==> line[start + i] == line[start..][i] == Sized(item)[i];
    assert line[start..start + |d|] == d;
    assert forall i :: start <= i < start + |d| ==> line[i] == d[i - start];
    IndexOfIs(line, COLON, start, start + |d|);
    DecimalRoundTrip(|item|);
  }

  /** A torn entry or tombstone line, cut anywhere before its end, never parses as an event. */
  lemma TornLineIsRejected(e: Event, cut: nat, generation: nat)
    requires e.lsn > 0 && !e.Rotate? && cut < |Render(e)|
    ensures ParseLine(Render(e)[..cut], generation) == None
  {
    var line := Render(e)[..cut];
    var letter := if e.Entry? then LETTER_E else LETTER_T;
    var head := Head(e.lsn, letter);
    if cut < |head| {
      assert line == head[..cut];
      TornHeadIsRejected(line, e.lsn, letter, generation);
    } else {
      assert head == line[..|head|];
      HeadParses(line, e.lsn, letter, generation);
      TornSizedIsRejected(line, |head|, e.item, cut - |head|);
    }
  }

  lemma TornSizedIsRejected(line: Text, start: nat, item: Text, cut: nat)
    requires start <= |line| && cut < |Sized(item)| && line[start..] == Sized(item)[..cut]
    ensures ParseSized(line, start) == None
  {
    var d := Decimal(|item|);
    if cut > |d| {
      SizedField(line, start, item, cut);
    } else {
      assert forall i :: start <= i < |line| ==> line[i] == line[start..][i - start] == d[i - start];
      assert IndexOf(line, COLON, start) == -1;
    }
  }

  /** A torn rotation marker is accepted exactly when its second colon reached the disk. */
  lemma TornMarkerParses(lsn: nat, generation: nat, cut: nat, running: nat)
    requires lsn > 0 && cut < |Render(Rotate(lsn, generation))|
    ensures ParseLine(Render(Rotate(lsn, generation))[..cut], running) != None
      <==> cut >= |Head(lsn, LETTER_R)|
  {
    var line := Render(Rotate(lsn, generation))[..cut];
    var head := Head(lsn, LETTER_R);
    if cut < |head| {
      assert line == head[..cut];
      TornHeadIsRejected(line, lsn, LETTER_R, running);
    } else {
      assert head == line[..|head|];
      HeadParses(line, lsn, LETTER_R, running);
      assert line[|head|..] == Decimal(generation)[..cut - |head|];
    }
  }

  /** Torn right after the second colon, any marker reads back as a rotation to generation 0. */
  lemma TornMarkerReadsAsGenerationZero(lsn: nat, generation: nat, running: nat)
    requires lsn > 0
    ensures ParseLine(Render(Rotate(lsn, generation))[..|Head(lsn, LETTER_R)|], running) == Some(Rotate(lsn, 0))
  {
    var line := Render(Rotate(lsn, generation))[..|Head(lsn, LETTER_R)|];
    HeadParses(line, lsn, LETTER_R, running);
    assert line[|Head(lsn, LETTER_R)|..] == [];
  }

  // ---- Whole files ----

  /** A complete or torn line holds no line break as long as its item does not. */
  lemma {:induction false} RenderedHasNoBreak(e: Event)
    requires !e.Rotate? ==> NEWLINE !in e.item
    ensures NEWLINE !in Render(e) && Render(e) != []
  {
  }

  function Rendered(events: seq<Event>): seq<Text> {
    seq(|events|, i requires 0 <= i < |events| => Render(events[i]))
  }

  function FileText(events: seq<Event>): Text {
    Unlines(Rendered(events))
  }

  /** The parse of a file's lines, the running generation following its rotation markers. */
  function ParseLines(lines: seq<Text>, generation: nat): seq<Event> {
    if lines == [] then []
    else if lines[0] == [] then ParseLines(lines[1..], generation)
    else
      match ParseLine(lines[0], generation)
      case None => ParseLines(lines[1..], generation)
      case Some(e) => [e] + ParseLines(lines[1..], if e.Rotate? then e.generation else generation)
  }

  /** Events as one file holds them: entries carry its generation, a marker comes last. */
  predicate Storable(events: seq<Event>, g: nat) {
    && (forall e <- events :: e.lsn > 0 && (!e.Rotate? ==> e.generation == g && NEWLINE !in e.item))
    && (forall i :: 0 <= i < |events| - 1 ==> !events[i].Rotate?)
  }

  /** Reading a file gives exactly the events written, in order; a torn last line adds nothing. */
  lemma {:induction false} FileRoundTrip(events: seq<Event>, g: nat, torn: Text)
    requires Storable(events, g)
    requires NEWLINE !in torn && forall h :: ParseLine(torn, h) == None
    ensures ParseLines(Split(FileText(events) + torn, NEWLINE), g) == events
  {
    forall l <- Rendered(events) ensures NEWLINE !in l {
      var i :| 0 <= i < |events| && l == Rendered(events)[i];
      assert events[i] in events;
      RenderedHasNoBreak(events[i]);
    }
    SplitUnlines(Rendered(events), torn);
    ParseRenderedLines(events, g, torn);
  }

  /** A file that ends with a complete line gives back exactly what was written to it. */
  lemma CompleteFileRoundTrip(events: seq<Event>, g: nat)
    requires Storable(events, g)
    ensures ParseLines(Split(FileText(events), NEWLINE), g) == events
  {
    FileRoundTrip(events, g, []);
    assert FileText(events) + [] == FileText(events);
  }

  lemma ParseFirst(line: Text, rest: seq<Text>, g: nat, e: Event)
    requires line != [] && ParseLine(line, g) == Some(e)
    ensures ParseLines([line] + rest, g) == [e] + ParseLines(rest, if e.Rotate? then e.generation else g)
  {
    assert ([line] + rest)[1..] == rest;
  }

  lemma ParseSkips(line: Text, rest: seq<Text>, g: nat)
    requires line == [] || ParseLine(line, g) == None
    ensures ParseLines([line] + rest, g) == ParseLines(rest, g)
  {
    assert ([line] + rest)[1..] == rest;
  }

  lemma StorableTail(events: seq<Event>, g: nat)
    requires Storable(events, g) && events != []
    ensures Storable(events[1..], g)
    ensures events[0].Rotate? ==> events[1..] == []
  {
    forall e | e in events[1..] ensures e in events {}
  }

  lemma {:induction false} ParseRenderedLines(events: seq<Event>, g: nat, torn: Text)
    requires Storable(events, g)
    requires forall h :: ParseLine(torn, h) == None
    ensures ParseLines(Rendered(events) + [torn], g) == events
  {
    hide ParseLine, Render;
    if events == [] {
      assert Rendered(events) + [torn] == [torn];
      assert ParseLine(torn, g) == None;
    } else {
      var e, rest := events[0], events[1..];
      StorableTail(events, g);
      assert e in events;
      ParseRendered(e, g);
      RenderedHasNoBreak(e);
      ParseFirst(Render(e), Rendered(rest) + [torn], g, e);
      assert Rendered(events) + [torn] == [Render(e)] + (Rendered(rest) + [torn]);
      if e.Rotate? {
        ParseRenderedLines(rest, e.generation, torn);
      } else {
        ParseRenderedLines(rest, g, torn);
      }
    }
  }
}
