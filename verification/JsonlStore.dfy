/** A small record codec with the two properties the store relies on: an encoding holds
    no line feed, and a proper part of one never decodes but is seen to be incomplete. */
module RecordCodec {
  import opened Bytes

  const OPEN: Byte := 123
  const COLON: Byte := 58
  const CLOSE: Byte := 125

  datatype Event = Event(sequence: nat, body: seq<Byte>)

  datatype Decoded = Parsed(event: Event) | Incomplete | Malformed

  /** What a reader knows after some bytes. */
  datatype Reader =
    | Before
    | Number(n: nat, any: bool)
    | Body(n: nat, body: seq<Byte>)
    | Half(n: nat, body: seq<Byte>, high: nat)
    | Done(event: Event)
    | Bad

  predicate IsSpace(b: Byte) {
    b == 32 || b == 9 || b == LF || b == 13
  }

  predicate IsNibble(b: Byte) {
    97 <= b < 113
  }

  function Read(r: Reader, b: Byte): Reader {
    match r
    case Before => if IsSpace(b) then Before else if b == OPEN then Number(0, false) else Bad
    case Number(n, any) =>
      if 48 <= b < 58 then Number(10 * n + (b - 48), true) else if b == COLON && any then Body(n, []) else Bad
    case Body(n, body) =>
      if IsNibble(b) then Half(n, body, b - 97) else if b == CLOSE then Done(Event(n, body)) else Bad
    case Half(n, body, high) =>
      if IsNibble(b) && high < 16 then Body(n, body + [16 * high + (b - 97)]) else Bad
    case Done(_) => if IsSpace(b) then r else Bad
    case Bad => Bad
  }

  function ReadAll(r: Reader, bytes: seq<Byte>): Reader {
    if bytes == [] then r else Read(ReadAll(r, bytes[..|bytes| - 1]), bytes[|bytes| - 1])
  }

  /** Decodes one record with blanks around it. */
  function Decode(bytes: seq<Byte>): Decoded {
    match ReadAll(Before, bytes)
    case Done(event) => Parsed(event)
    case Bad => Malformed
    case _ => Incomplete
  }

  function Digits(n: nat): seq<Byte> {
    if n < 10 then [48 + n] else Digits(n / 10) + [48 + n % 10]
  }

  function Nibbles(body: seq<Byte>): seq<Byte> {
    if body == [] then [] else
      var last := body[|body| - 1];
      Nibbles(body[..|body| - 1]) + [97 + last / 16] + [97 + last % 16]
  }

  function Opening(e: Event): seq<Byte> {
    [OPEN] + Digits(e.sequence) + [COLON] + Nibbles(e.body)
  }

  function Encode(e: Event): seq<Byte> {
    Opening(e) + [CLOSE]
  }

  lemma ReadMore(r: Reader, a: seq<Byte>, b: Byte)
    ensures ReadAll(r, a + [b]) == Read(ReadAll(r, a), b)
  {
    assert (a + [b])[..|a + [b]| - 1] == a;
  }

  lemma {:induction false} ReadConcat(r: Reader, a: seq<Byte>, b: seq<Byte>)
    ensures ReadAll(r, a + b) == ReadAll(ReadAll(r, a), b)
  {
    if b == [] {
      assert a + b == a;
    } else {
      var init, last := b[..|b| - 1], b[|b| - 1];
      ReadConcat(r, a, init);
      assert a + b == (a + init) + [last];
      ReadMore(r, a + init, last);
    }
  }

  lemma {:induction false} DigitsRead(n: nat)
    ensures ReadAll(Number(0, false), Digits(n)) == Number(n, true)
    ensures LF !in Digits(n)
  {
    if n < 10 {
      assert Digits(n) == [] + [48 + n];
      ReadMore(Number(0, false), [], 48 + n);
    } else {
      DigitsRead(n / 10);
      ReadMore(Number(0, false), Digits(n / 10), 48 + n % 10);
    }
  }

  lemma NibblePair(n: nat, body: seq<Byte>, b: Byte)
    ensures IsNibble(97 + b / 16) && IsNibble(97 + b % 16)
    ensures Read(Read(Body(n, body), 97 + b / 16), 97 + b % 16) == Body(n, body + [b])
  {
  }

  lemma {:induction false} NibblesRead(n: nat, body: seq<Byte>)
    ensures ReadAll(Body(n, []), Nibbles(body)) == Body(n, body)
    ensures LF !in Nibbles(body)
  {
    if body != [] {
      var init, last := body[..|body| - 1], body[|body| - 1];
      NibblesRead(n, init);
      NibblePair(n, init, last);
      ReadMore(Body(n, []), Nibbles(init), 97 + last / 16);
      ReadMore(Body(n, []), Nibbles(init) + [97 + last / 16], 97 + last % 16);
      assert body == init + [last];
    }
  }

  lemma OpeningRead(e: Event)
    ensures ReadAll(Before, Opening(e)) == Body(e.sequence, e.body)
    ensures LF !in Opening(e) && Opening(e) != [] && Opening(e)[0] == OPEN
  {
    var a, b := [OPEN] + Digits(e.sequence), [OPEN] + Digits(e.sequence) + [COLON];
    ReadMore(Before, [], OPEN);
    assert [] + [OPEN] == [OPEN];
    DigitsRead(e.sequence);
    ReadConcat(Before, [OPEN], Digits(e.sequence));
    ReadMore(Before, a, COLON);
    NibblesRead(e.sequence, e.body);
    ReadConcat(Before, b, Nibbles(e.body));
  }

  /** Nothing follows a complete or a malformed record but blanks. */
  lemma {:induction false} Finished(r: Reader, bytes: seq<Byte>)
    requires r.Done? || r.Bad?
    ensures ReadAll(r, bytes) == r || ReadAll(r, bytes) == Bad
  {
    if bytes != [] {
      Finished(r, bytes[..|bytes| - 1]);
    }
  }

  /** An encoding decodes to its record, with or without its line feed. */
  lemma EncodingDecodes(e: Event)
    ensures Decode(Encode(e)) == Parsed(e) == Decode(Encode(e) + [LF])
    ensures LF !in Encode(e) && Encode(e)[0] == OPEN
  {
    OpeningRead(e);
    ReadMore(Before, Opening(e), CLOSE);
    ReadMore(Before, Encode(e), LF);
  }

  /** No proper part of an encoding decodes, or looks malformed. */
  lemma PartIsIncomplete(e: Event, n: nat)
    requires n < |Encode(e)|
    ensures Decode(Encode(e)[..n]) == Incomplete
  {
    var part, rest := Opening(e)[..n], Opening(e)[n..];
    assert Encode(e)[..n] == part && Opening(e) == part + rest;
    OpeningRead(e);
    ReadConcat(Before, part, rest);
    var r := ReadAll(Before, part);
    if r.Done? || r.Bad? {
      Finished(r, rest);
    }
  }

  /** A line feed behind an unfinished line changes nothing that was decoded. */
  lemma TerminatedDecodes(line: seq<Byte>)
    ensures Decode(line).Parsed? ==> Decode(line + [LF]) == Decode(line)
  {
    ReadMore(Before, line, LF);
  }
}

/** The append-only log file: what opening makes of any byte image of it, and appends that
    may stop after any byte. */
module JsonlStore {
  import opened Bytes
  import opened Wrappers
  import opened Sequences
  import opened RecordCodec

  // ---- Lines ----

  /** The length of the first line, its line feed included. */
  function LineLength(bytes: seq<Byte>): (n: nat)
    requires bytes != []
    ensures 0 < n <= |bytes|
    ensures forall i :: 0 <= i < n - 1 ==> bytes[i] != LF
    ensures n == |bytes| || bytes[n - 1] == LF
  {
    if bytes[0] == LF || |bytes| == 1 then 1 else 1 + LineLength(bytes[1..])
  }

  lemma {:induction false} LineIs(bytes: seq<Byte>, n: nat)
    requires 0 < n <= |bytes| && (forall i :: 0 <= i < n - 1 ==> bytes[i] != LF)
    requires n == |bytes| || bytes[n - 1] == LF
    ensures LineLength(bytes) == n
  {
    if bytes[0] != LF && |bytes| > 1 {
      LineIs(bytes[1..], n - 1);
    }
  }

  /** What one line is to the reader. */
  datatype LineKind = Skipped | Holds(event: Event) | Unfinished | Broken

  /** What reading a log to its end finds: the records, how many bytes are sound, an
      incomplete last record, and whether the last sound line lacks its line feed. */
  datatype Scanned =
    | Scanned(events: seq<Event>, valid: nat, torn: Option<seq<Byte>>, unterminated: bool)
    | Corrupt(line: nat)

  function Behind(events: seq<Event>, valid: nat, lines: nat, unterminated: bool, r: Scanned): Scanned {
    match r
    case Corrupt(line) => Corrupt(lines + line)
    case Scanned(es, v, torn, u) => Scanned(events + es, valid + v, torn, unterminated || u)
  }

  function Found(kind: LineKind): seq<Event> {
    if kind.Holds? then [kind.event] else []
  }

  /** Only an unterminated last line may be unfinished. */
  function Scan(kindOf: seq<Byte> -> LineKind, bytes: seq<Byte>): Scanned
    decreases |bytes|
  {
    if bytes == [] then Scanned([], 0, None, false) else
      var n := LineLength(bytes);
      var kind, open := kindOf(bytes[..n]), bytes[n - 1] != LF;
      if kind.Skipped? || kind.Holds? then Behind(Found(kind), n, 1, open, Scan(kindOf, bytes[n..]))
      else if kind.Unfinished? && open then Scanned([], 0, Some(bytes[..n]), false)
      else Corrupt(1)
  }

  /** A log in which every record is complete and every line is terminated. */
  predicate Clean(kindOf: seq<Byte> -> LineKind, bytes: seq<Byte>, events: seq<Event>) {
    Scan(kindOf, bytes) == Scanned(events, |bytes|, None, false)
  }

  // ---- What a scan finds, for any bytes ----

  predicate Goes(kind: LineKind) {
    kind.Skipped? || kind.Holds?
  }

  lemma DropDrop(bytes: seq<Byte>, n: nat, m: nat)
    requires n + m <= |bytes|
    ensures bytes[n..][m..] == bytes[n + m..] && bytes[n..][..m] == bytes[n..n + m]
  {
  }

  lemma {:induction false} ScanMeasures(kindOf: seq<Byte> -> LineKind, bytes: seq<Byte>)
    requires Scan(kindOf, bytes).Scanned?
    ensures Scan(kindOf, bytes).valid <= |bytes|
    ensures Scan(kindOf, bytes).torn.None? ==> Scan(kindOf, bytes).valid == |bytes|
    ensures Scan(kindOf, bytes).unterminated <==>
        Scan(kindOf, bytes).torn.None? && bytes != [] && bytes[|bytes| - 1] != LF
    decreases |bytes|
  {
    if bytes != [] {
      var n := LineLength(bytes);
      if Goes(kindOf(bytes[..n])) {
        ScanMeasures(kindOf, bytes[n..]);
      }
    }
  }

  /** A torn tail is everything behind the sound part, and a single line without an end. */
  lemma {:induction false} TornIsTheRest(kindOf: seq<Byte> -> LineKind, bytes: seq<Byte>)
    requires Scan(kindOf, bytes).Scanned? && Scan(kindOf, bytes).torn.Some?
    ensures Scan(kindOf, bytes).valid < |bytes|
    ensures bytes[Scan(kindOf, bytes).valid..] == Scan(kindOf, bytes).torn.value
        && LF !in Scan(kindOf, bytes).torn.value
    decreases |bytes|
  {
    var n := LineLength(bytes);
    if Goes(kindOf(bytes[..n])) {
      TornIsTheRest(kindOf, bytes[n..]);
      DropDrop(bytes, n, Scan(kindOf, bytes[n..]).valid);
    } else {
      assert n == |bytes| && bytes[..n] == bytes && bytes[0..] == bytes;
    }
  }

  lemma BehindBehind(a: seq<Event>, n: nat, k: nat, b: seq<Event>, m: nat, j: nat, open: bool, r: Scanned)
    ensures Behind(a, n, k, false, Behind(b, m, j, open, r)) == Behind(a + b, n + m, k + j, open, r)
  {
    if r.Scanned? {
      assert a + (b + r.events) == (a + b) + r.events;
    }
  }

  /** How many lines a log has. */
  function Lines(bytes: seq<Byte>): nat
    decreases |bytes|
  {
    if bytes == [] then 0 else 1 + Lines(bytes[LineLength(bytes)..])
  }

  predicate IsLine(line: seq<Byte>) {
    line != [] && line[|line| - 1] == LF && forall i :: 0 <= i < |line| - 1 ==> line[i] != LF
  }

  lemma FirstLine(line: seq<Byte>, rest: seq<Byte>)
    requires IsLine(line)
    ensures LineLength(line + rest) == |line| && (line + rest)[..|line|] == line && (line + rest)[|line|..] == rest
  {
    LineIs(line + rest, |line|);
  }

  lemma ScanLine(kindOf: seq<Byte> -> LineKind, line: seq<Byte>, rest: seq<Byte>)
    requires IsLine(line) && Goes(kindOf(line))
    ensures Scan(kindOf, line + rest) == Behind(Found(kindOf(line)), |line|, 1, false, Scan(kindOf, rest))
  {
    FirstLine(line, rest);
  }

  lemma CleanSplits(kindOf: seq<Byte> -> LineKind, base: seq<Byte>, events: seq<Event>)
    returns (line: seq<Byte>, rest: seq<Byte>)
    requires Clean(kindOf, base, events) && base != []
    ensures base == line + rest && IsLine(line) && Goes(kindOf(line)) && Scan(kindOf, rest).Scanned?
    ensures events == Found(kindOf(line)) + Scan(kindOf, rest).events
    ensures Clean(kindOf, rest, Scan(kindOf, rest).events)
  {
    var n := LineLength(base);
    line, rest := base[..n], base[n..];
  }

  lemma ContinueStep(
    kindOf: seq<Byte> -> LineKind, line: seq<Byte>, tail: seq<Byte>, es: seq<Event>, n: nat, lines: nat, r: Scanned)
    requires IsLine(line) && Goes(kindOf(line)) && Scan(kindOf, tail) == Behind(es, n, lines, false, r)
    ensures Scan(kindOf, line + tail) == Behind(Found(kindOf(line)) + es, |line| + n, 1 + lines, false, r)
  {
    ScanLine(kindOf, line, tail);
    BehindBehind(Found(kindOf(line)), |line|, 1, es, n, lines, false, r);
  }

  lemma LinesOf(line: seq<Byte>, rest: seq<Byte>)
    requires IsLine(line)
    ensures Lines(line + rest) == 1 + Lines(rest)
  {
    FirstLine(line, rest);
  }

  /** Reading a sound log with more behind it continues with what is behind it. */
  lemma {:induction false} ScanContinues(
    kindOf: seq<Byte> -> LineKind, base: seq<Byte>, events: seq<Event>, more: seq<Byte>)
    requires Clean(kindOf, base, events)
    ensures Scan(kindOf, base + more) == Behind(events, |base|, Lines(base), false, Scan(kindOf, more))
    decreases |base|
  {
    if base == [] {
      assert base + more == more;
      BehindNothing(Scan(kindOf, more));
    } else {
      var line, rest := CleanSplits(kindOf, base, events);
      ScanContinues(kindOf, rest, Scan(kindOf, rest).events, more);
      ContinueStep(kindOf, line, rest + more, Scan(kindOf, rest).events, |rest|, Lines(rest), Scan(kindOf, more));
      LinesOf(line, rest);
      Associative(line, rest, more);
    }
  }

  lemma BehindNothing(r: Scanned)
    ensures Behind([], 0, 0, false, r) == r
  {
    assert r.Scanned? ==> [] + r.events == r.events;
  }

  lemma CutTailStep(kindOf: seq<Byte> -> LineKind, line: seq<Byte>, rest: seq<Byte>, v: nat, es: seq<Event>)
    requires IsLine(line) && Goes(kindOf(line)) && v <= |rest| && Clean(kindOf, rest[..v], es)
    ensures Clean(kindOf, (line + rest)[..|line| + v], Found(kindOf(line)) + es)
  {
    ScanLine(kindOf, line, rest[..v]);
    assert (line + rest)[..|line| + v] == line + rest[..v];
  }

  lemma TornSplits(kindOf: seq<Byte> -> LineKind, bytes: seq<Byte>) returns (line: seq<Byte>, rest: seq<Byte>)
    requires Scan(kindOf, bytes).Scanned? && Scan(kindOf, bytes).torn.Some? && Scan(kindOf, bytes).valid > 0
    ensures bytes == line + rest && IsLine(line) && Goes(kindOf(line)) && Scan(kindOf, rest).Scanned?
    ensures Scan(kindOf, bytes) == Behind(Found(kindOf(line)), |line|, 1, false, Scan(kindOf, rest))
  {
    var n := LineLength(bytes);
    line, rest := bytes[..n], bytes[n..];
    assert bytes[n - 1] != LF ==> rest == [];
  }

  /** Cutting a torn tail off leaves a sound log with the records before it. */
  lemma {:induction false} CutTailIsClean(kindOf: seq<Byte> -> LineKind, bytes: seq<Byte>)
    requires Scan(kindOf, bytes).Scanned? && Scan(kindOf, bytes).torn.Some?
    ensures Scan(kindOf, bytes).valid <= |bytes|
    ensures Clean(kindOf, bytes[..Scan(kindOf, bytes).valid], Scan(kindOf, bytes).events)
    decreases |bytes|
  {
    if Scan(kindOf, bytes).valid == 0 {
      assert bytes[..0] == [];
    } else {
      var line, rest := TornSplits(kindOf, bytes);
      CutTailIsClean(kindOf, rest);
      CutTailStep(kindOf, line, rest, Scan(kindOf, rest).valid, Scan(kindOf, rest).events);
    }
  }

  lemma AddNewlineStep(kindOf: seq<Byte> -> LineKind, line: seq<Byte>, ended: seq<Byte>, es: seq<Event>)
    requires IsLine(line) && Goes(kindOf(line)) && Clean(kindOf, ended, es)
    ensures Clean(kindOf, line + ended, Found(kindOf(line)) + es)
  {
    ScanLine(kindOf, line, ended);
  }

  lemma LastLine(kindOf: seq<Byte> -> LineKind, line: seq<Byte>)
    requires IsLine(line) && Goes(kindOf(line))
    ensures Clean(kindOf, line, Found(kindOf(line)))
  {
    ScanLine(kindOf, line, []);
    assert line + [] == line;
  }

  /** A line feed at its end does not change what a line is. */
  predicate Tolerant(kindOf: seq<Byte> -> LineKind, line: seq<Byte>) {
    Goes(kindOf(line)) ==> kindOf(line + [LF]) == kindOf(line)
  }

  lemma UnterminatedSplits(kindOf: seq<Byte> -> LineKind, bytes: seq<Byte>) returns (line: seq<Byte>, rest: seq<Byte>)
    requires Scan(kindOf, bytes).Scanned? && Scan(kindOf, bytes).unterminated
    ensures bytes == line + rest && Goes(kindOf(line)) && Scan(kindOf, rest).Scanned?
    ensures Scan(kindOf, bytes).events == Found(kindOf(line)) + Scan(kindOf, rest).events
    ensures if rest == [] then IsLine(line + [LF]) else IsLine(line) && Scan(kindOf, rest).unterminated
    ensures |rest| < |bytes|
  {
    ScanMeasures(kindOf, bytes);
    var n := LineLength(bytes);
    line, rest := bytes[..n], bytes[n..];
    assert bytes[n - 1] != LF ==> rest == [];
  }

  /** A line feed behind an unterminated last line leaves a sound log with all records. */
  lemma {:induction false} AddedNewlineIsClean(kindOf: seq<Byte> -> LineKind, bytes: seq<Byte>)
    requires forall line: seq<Byte> :: Tolerant(kindOf, line)
    requires Scan(kindOf, bytes).Scanned? && Scan(kindOf, bytes).unterminated
    ensures Clean(kindOf, bytes + [LF], Scan(kindOf, bytes).events)
    decreases |bytes|
  {
    var line, rest := UnterminatedSplits(kindOf, bytes);
    if rest == [] {
      assert Tolerant(kindOf, line) && line + rest == line;
      assert Scan(kindOf, rest).events == [] && Found(kindOf(line)) + [] == Found(kindOf(line));
      LastLine(kindOf, line + [LF]);
    } else {
      AddedNewlineIsClean(kindOf, rest);
      AddNewlineStep(kindOf, line, rest + [LF], Scan(kindOf, rest).events);
      Associative(line, rest, [LF]);
    }
  }

  // ---- The lines of an event log ----

  predicate BlankLine(line: seq<Byte>) {
    forall i :: 0 <= i < |line| ==> line[i] == 32 || 9 <= line[i] <= 10 || 12 <= line[i] <= 13
  }

  function KindOf(line: seq<Byte>): LineKind {
    if BlankLine(line) then Skipped else
    match Decode(line)
    case Parsed(event) => Holds(event)
    case Incomplete => Unfinished
    case Malformed => Broken
  }

  lemma NewlineKeepsKind(line: seq<Byte>)
    ensures Tolerant(KindOf, line)
  {
    TerminatedDecodes(line);
    var full := line + [LF];
    if !BlankLine(line) {
      var i :| 0 <= i < |line| && !(line[i] == 32 || 9 <= line[i] <= 10 || 12 <= line[i] <= 13);
      assert full[i] == line[i];
    }
  }

  lemma RecordKinds(e: Event)
    ensures KindOf(Encode(e)) == Holds(e) == KindOf(Written(e))
    ensures Encode(e) != [] && LF !in Encode(e)
    ensures forall cut :: 0 < cut < |Encode(e)| ==> KindOf(Encode(e)[..cut]) == Unfinished
  {
    EncodingDecodes(e);
    assert Encode(e)[0] == OPEN && Written(e)[0] == OPEN;
    forall cut | 0 < cut < |Encode(e)| ensures KindOf(Encode(e)[..cut]) == Unfinished {
      PartIsIncomplete(e, cut);
      assert Encode(e)[..cut][0] == OPEN;
    }
  }

  // ---- Order and numbering ----

  predicate Ordered(es: seq<Event>) {
    forall i, j :: 0 <= i < j < |es| ==> es[i].sequence <= es[j].sequence
  }

  predicate Numbered(es: seq<Event>) {
    forall i, j :: 0 <= i < j < |es| ==> es[i].sequence < es[j].sequence
  }

  /** Puts an event behind all those not numbered higher. */
  function Insert(e: Event, es: seq<Event>): seq<Event> {
    if es == [] || es[|es| - 1].sequence <= e.sequence then es + [e]
    else Insert(e, es[..|es| - 1]) + [es[|es| - 1]]
  }

  /** A stable sort by sequence number. */
  function SortBySequence(es: seq<Event>): seq<Event> {
    if es == [] then [] else Insert(es[|es| - 1], SortBySequence(es[..|es| - 1]))
  }

  /** The events with one number, in the order they have. */
  function WithNumber(es: seq<Event>, n: nat): seq<Event> {
    if es == [] then [] else
      WithNumber(es[..|es| - 1], n) + if es[|es| - 1].sequence == n then [es[|es| - 1]] else []
  }

  lemma WithNumberAppend(es: seq<Event>, e: Event, n: nat)
    ensures WithNumber(es + [e], n) == WithNumber(es, n) + if e.sequence == n then [e] else []
  {
    assert (es + [e])[..|es + [e]| - 1] == es;
  }

  lemma {:induction false} InsertedNumbers(e: Event, es: seq<Event>, bound: nat)
    requires e.sequence <= bound && forall i :: 0 <= i < |es| ==> es[i].sequence <= bound
    ensures forall i :: 0 <= i < |Insert(e, es)| ==> Insert(e, es)[i].sequence <= bound
  {
    if es != [] {
      InsertedNumbers(e, es[..|es| - 1], bound);
    }
  }

  lemma OrderedAppend(es: seq<Event>, e: Event)
    requires Ordered(es) && forall i :: 0 <= i < |es| ==> es[i].sequence <= e.sequence
    ensures Ordered(es + [e])
  {
  }

  lemma {:induction false} InsertKeepsOrder(e: Event, es: seq<Event>)
    requires Ordered(es)
    ensures Ordered(Insert(e, es))
  {
    if es == [] || es[|es| - 1].sequence <= e.sequence {
      OrderedAppend(es, e);
    } else {
      var init, last := es[..|es| - 1], es[|es| - 1];
      InsertKeepsOrder(e, init);
      InsertedNumbers(e, init, last.sequence);
      OrderedAppend(Insert(e, init), last);
    }
  }

  lemma {:induction false} InsertKeepsPeers(e: Event, es: seq<Event>, n: nat)
    requires Ordered(es)
    ensures WithNumber(Insert(e, es), n) == WithNumber(es, n) + if e.sequence == n then [e] else []
  {
    if es == [] || es[|es| - 1].sequence <= e.sequence {
      WithNumberAppend(es, e, n);
      assert [] + [e] == [e];
    } else {
      var init, last := es[..|es| - 1], es[|es| - 1];
      InsertKeepsPeers(e, init, n);
      WithNumberAppend(Insert(e, init), last, n);
      PeersCommute(WithNumber(init, n), e, last, n);
    }
  }

  lemma PeersCommute(s: seq<Event>, e: Event, last: Event, n: nat)
    requires e.sequence < last.sequence
    ensures var a, b := if e.sequence == n then [e] else [], if last.sequence == n then [last] else [];
            (s + a) + b == (s + b) + a
  {
  }

  /** Sorting orders by number and keeps the file order of events with equal numbers. */
  lemma {:induction false} SortIsStable(es: seq<Event>, n: nat)
    ensures Ordered(SortBySequence(es))
    ensures WithNumber(SortBySequence(es), n) == WithNumber(es, n)
  {
    if es != [] {
      var init, last := es[..|es| - 1], es[|es| - 1];
      SortIsStable(init, n);
      InsertKeepsOrder(last, SortBySequence(init));
      InsertKeepsPeers(last, SortBySequence(init), n);
    }
  }

  lemma OrderedInit(es: seq<Event>)
    requires Ordered(es) && es != []
    ensures Ordered(es[..|es| - 1])
    ensures Insert(es[|es| - 1], es[..|es| - 1]) == es
  {
    var init, last := es[..|es| - 1], es[|es| - 1];
    assert init + [last] == es;
    if init != [] {
      assert init[|init| - 1] == es[|es| - 2];
    }
  }

  lemma {:induction false} SortKeepsOrdered(es: seq<Event>)
    requires Ordered(es)
    ensures SortBySequence(es) == es
  {
    if es != [] {
      OrderedInit(es);
      SortKeepsOrdered(es[..|es| - 1]);
    }
  }

  /** One more than the highest number. */
  function NextSequence(es: seq<Event>): nat {
    if es == [] then 0 else
      var before, last := NextSequence(es[..|es| - 1]), es[|es| - 1].sequence + 1;
      if before <= last then last else before
  }

  lemma {:induction false} NextIsAbove(es: seq<Event>)
    ensures forall i :: 0 <= i < |es| ==> es[i].sequence < NextSequence(es)
    ensures es != [] ==> exists i :: 0 <= i < |es| && es[i].sequence + 1 == NextSequence(es)
  {
    if es != [] {
      var n := |es| - 1;
      NextIsAbove(es[..n]);
      if NextSequence(es[..n]) <= es[n].sequence + 1 {
        assert es[n].sequence + 1 == NextSequence(es);
      } else {
        var i :| 0 <= i < n && es[..n][i].sequence + 1 == NextSequence(es[..n]);
        assert es[i].sequence + 1 == NextSequence(es);
      }
    }
  }

  // ---- Opening ----

  /** What opening leaves: the file, the events handed out, the next number, and the bytes
      that were set aside. */
  datatype Opened =
      Opened(file: seq<Byte>, events: seq<Event>, next: nat, archive: Option<seq<Byte>>) | Refused(line: nat)

  /** The file once the finding of a scan was acted on. */
  function Mended(file: seq<Byte>, s: Scanned): seq<Byte>
    requires s.Scanned? && s.valid <= |file|
  {
    if s.torn.Some? then file[..s.valid] else if s.unterminated then file + [LF] else file
  }

  function Repaired(file: seq<Byte>): seq<Byte>
    requires Scan(KindOf, file).Scanned?
  {
    ScanMeasures(KindOf, file);
    Mended(file, Scan(KindOf, file))
  }

  function Open(file: seq<Byte>): Opened {
    match Scan(KindOf, file)
    case Corrupt(line) => Refused(line)
    case Scanned(events, _, torn, _) =>
      Opened(Repaired(file), SortBySequence(events), NextSequence(events), torn)
  }

  /** Opening repairs for good, whatever the file held: what it leaves opens again to the
      same events and numbering without another repair, ends with a line feed, and together
      with what was set aside is the file as it was found. */
  lemma OpeningIsStable(file: seq<Byte>)
    requires Open(file).Opened?
    ensures var o := Open(file);
            && Open(o.file) == o.(archive := None)
            && (o.file == [] || o.file[|o.file| - 1] == LF)
            && (o.archive.Some? ==> file == o.file + o.archive.value && LF !in o.archive.value)
            && (o.archive.None? ==> o.file == file || o.file == file + [LF])
  {
    RepairIsClean(file);
    ScanMeasures(KindOf, Repaired(file));
    if Scan(KindOf, file).torn.Some? {
      TornIsTheRest(KindOf, file);
    }
  }

  lemma RepairIsClean(file: seq<Byte>)
    requires Scan(KindOf, file).Scanned?
    ensures Clean(KindOf, Repaired(file), Scan(KindOf, file).events)
  {
    ScanMeasures(KindOf, file);
    if Scan(KindOf, file).torn.Some? {
      CutTailIsClean(KindOf, file);
    } else if Scan(KindOf, file).unterminated {
      forall line: seq<Byte> ensures Tolerant(KindOf, line) {
        NewlineKeepsKind(line);
      }
      AddedNewlineIsClean(KindOf, file);
    }
  }

  function Written(e: Event): seq<Byte> {
    Encode(e) + [LF]
  }

  lemma OneLine(line: seq<Byte>)
    requires line != [] && forall i :: 0 <= i < |line| - 1 ==> line[i] != LF
    ensures LineLength(line) == |line| && line[..|line|] == line && line[|line|..] == []
  {
    LineIs(line, |line|);
  }

  /** One record at the end of a log, cut anywhere. */
  lemma CutRecordScans(e: Event, cut: nat)
    requires cut <= |Written(e)|
    ensures Scan(KindOf, Written(e)[..cut]) ==
            if cut == 0 then Scanned([], 0, None, false)
            else if cut < |Encode(e)| then Scanned([], 0, Some(Encode(e)[..cut]), false)
            else Scanned([e], cut, None, cut == |Encode(e)|)
  {
    var part := Written(e)[..cut];
    RecordKinds(e);
    if cut > 0 {
      assert forall i :: 0 <= i < cut - 1 ==> part[i] == Encode(e)[i];
      OneLine(part);
      if cut < |Encode(e)| {
        assert part == Encode(e)[..cut];
        assert part[cut - 1] == Encode(e)[cut - 1];
      } else if cut == |Encode(e)| {
        assert part == Encode(e);
      } else {
        assert part == Written(e);
      }
    }
  }

  /** A sound log, cut anywhere in one more record, opens to exactly the records before it,
      and to that one too if all its bytes but the line feed made it. The cut bytes are set
      aside, and what is left is sound. */
  lemma CutLogOpens(base: seq<Byte>, es: seq<Event>, e: Event, cut: nat)
    requires Clean(KindOf, base, es) && cut <= |Written(e)|
    ensures var file := base + Written(e)[..cut];
            var kept := if cut < |Encode(e)| then es else es + [e];
            && Open(file) == Opened(
                 if cut < |Encode(e)| then base else base + Written(e),
                 SortBySequence(kept), NextSequence(kept),
                 if 0 < cut < |Encode(e)| then Some(Encode(e)[..cut]) else None)
            && Clean(KindOf, Open(file).file, kept)
  {
    var tail := Written(e)[..cut];
    var file := base + tail;
    var kept := if cut < |Encode(e)| then es else es + [e];
    CutRecordScans(e, cut);
    ScanContinues(KindOf, base, es, tail);
    assert es + [] == es;
    assert Scan(KindOf, file).events == kept;
    RepairIsClean(file);
    ScanMeasures(KindOf, file);
    RepairedIs(base, e, cut, Scan(KindOf, file));
  }

  lemma RepairedIs(base: seq<Byte>, e: Event, cut: nat, s: Scanned)
    requires cut <= |Written(e)| && s.Scanned? && s.valid <= |base| + cut
    requires s.torn.Some? <==> 0 < cut < |Encode(e)|
    requires s.valid == |base| + if cut < |Encode(e)| then 0 else cut
    requires s.unterminated <==> cut == |Encode(e)|
    ensures Mended(base + Written(e)[..cut], s) == if cut < |Encode(e)| then base else base + Written(e)
  {
    var tail := Written(e)[..cut];
    if cut < |Encode(e)| {
      assert (base + tail)[..|base|] == base;
    } else if cut == |Encode(e)| {
      assert tail + [LF] == Written(e);
      assert (base + tail) + [LF] == base + (tail + [LF]);
    } else {
      assert tail == Written(e);
    }
  }

  lemma SoundAppend(base: seq<Byte>, es: seq<Event>, e: Event)
    requires Clean(KindOf, base, es)
    ensures Clean(KindOf, base + Written(e), es + [e])
  {
    assert Written(e)[..|Written(e)|] == Written(e);
    CutLogOpens(base, es, e, |Written(e)|);
  }

  lemma {:induction false} SortedBounds(es: seq<Event>, n: nat)
    requires forall i :: 0 <= i < |es| ==> es[i].sequence <= n
    ensures forall i :: 0 <= i < |SortBySequence(es)| ==> SortBySequence(es)[i].sequence <= n
  {
    if es != [] {
      SortedBounds(es[..|es| - 1], n);
      InsertedNumbers(es[|es| - 1], SortBySequence(es[..|es| - 1]), n);
    }
  }

  lemma NextIsLast(es: seq<Event>, e: Event)
    requires e.sequence == NextSequence(es)
    ensures SortBySequence(es + [e]) == SortBySequence(es) + [e]
    ensures NextSequence(es + [e]) == NextSequence(es) + 1
  {
    assert (es + [e])[..|es + [e]| - 1] == es;
    NextIsAbove(es);
    SortedBounds(es, e.sequence);
    assert SortBySequence(es) == [] ==> SortBySequence(es) + [e] == [e];
  }

  lemma SortedBelow(es: seq<Event>)
    ensures forall i :: 0 <= i < |SortBySequence(es)| ==> SortBySequence(es)[i].sequence < NextSequence(es)
  {
    NextIsAbove(es);
    if es != [] {
      SortedBounds(es, NextSequence(es) - 1);
    }
  }

  /** The last event in order carries the highest number, also where numbers repeat. */
  lemma {:induction false} SortedEndsHighest(es: seq<Event>)
    ensures |SortBySequence(es)| == |es|
    ensures es != [] ==> SortBySequence(es)[|es| - 1].sequence + 1 == NextSequence(es)
  {
    if es != [] {
      SortedEndsHighest(es[..|es| - 1]);
      InsertedLast(es[|es| - 1], SortBySequence(es[..|es| - 1]));
    }
  }

  lemma InsertedLast(e: Event, es: seq<Event>)
    ensures |Insert(e, es)| == |es| + 1
    ensures Insert(e, es)[|es|] == if es == [] || es[|es| - 1].sequence <= e.sequence then e else es[|es| - 1]
  {
  }

  lemma NumberingRises(es: seq<Event>, e: Event)
    requires Numbered(es) && e.sequence == NextSequence(es)
    ensures Numbered(es + [e])
  {
    NextIsAbove(es);
  }

  predicate PartWritten(before: seq<Byte>, e: Event, after: seq<Byte>) {
    exists cut :: 0 <= cut <= |Written(e)| && after == before + Written(e)[..cut]
  }

  /** What is known of the file: all of it is sound, or all but a part of one record. */
  predicate SoundAs(
    log: seq<Byte>, events: seq<Event>, next: nat, failed: bool, base: seq<Byte>, written: seq<Event>, pending: Event)
  {
    && Clean(KindOf, base, written)
    && events == SortBySequence(written) && next == NextSequence(written)
    && (if failed then pending.sequence == next && PartWritten(base, pending, log) else log == base)
  }

  /** A record whose write failed is found again if all its bytes but the line feed are there. */
  function Landed(log: seq<Byte>, base: seq<Byte>, failed: bool, pending: Event): seq<Event> {
    if failed && |log| >= |base| + |Encode(pending)| then [pending] else []
  }

  lemma SoundReopens(
    log: seq<Byte>, events: seq<Event>, next: nat, failed: bool, base: seq<Byte>, written: seq<Event>, pending: Event)
    requires SoundAs(log, events, next, failed, base, written, pending)
    ensures var o, found := Open(log), Landed(log, base, failed, pending);
            && o.Opened? && o.events == events + found && o.next == next + |found|
            && Clean(KindOf, o.file, written + found)
            && (forall i :: 0 <= i < |o.events| ==> o.events[i].sequence < o.next)
  {
    if failed {
      var cut :| 0 <= cut <= |Written(pending)| && log == base + Written(pending)[..cut];
      CutLogOpens(base, written, pending, cut);
      NextIsLast(written, pending);
      SortedBelow(written + [pending]);
    } else {
      RepairIsClean(log);
    }
    SortedBelow(written);
    assert events + [] == events && written + [] == written;
  }

  lemma StoredIsSound(log: seq<Byte>, events: seq<Event>, next: nat, written: seq<Event>, pending: Event, e: Event)
    requires SoundAs(log, events, next, false, log, written, pending) && e.sequence == next
    ensures SoundAs(log + Written(e), events + [e], next + 1, false, log + Written(e), written + [e], e)
  {
    SoundAppend(log, written, e);
    NextIsLast(written, e);
  }

  lemma FailedIsSound(
    log: seq<Byte>, events: seq<Event>, next: nat, written: seq<Event>, pending: Event, e: Event, cut: nat)
    requires SoundAs(log, events, next, false, log, written, pending) && e.sequence == next && cut <= |Written(e)|
    ensures SoundAs(log + Written(e)[..cut], events, next, true, log, written, e)
    ensures PartWritten(log, e, log + Written(e)[..cut])
  {
  }

  function SetAside(archives: seq<seq<Byte>>, torn: Option<seq<Byte>>): seq<seq<Byte>> {
    archives + if torn.Some? then [torn.value] else []
  }

  /** What a repair that is stopped anywhere may leave. Nothing, a part of the torn tail set
      aside beside the log as it was, or the mended log, with the whole tail set aside. */
  predicate PartlyRepaired(
    log: seq<Byte>, archives: seq<seq<Byte>>, torn: Option<seq<Byte>>, mended: seq<Byte>,
    log': seq<Byte>, archives': seq<seq<Byte>>)
  {
    || (log' == log && archives' == archives)
    || (log' == log && torn.Some? && exists k :: 0 <= k <= |torn.value| && archives' == archives + [torn.value[..k]])
    || (log' == mended && archives' == SetAside(archives, torn))
  }

  /** What an opening that is stopped anywhere may leave. */
  predicate Interrupted(
    log: seq<Byte>, archives: seq<seq<Byte>>, log': seq<Byte>, archives': seq<seq<Byte>>)
  {
    match Open(log)
    case Refused(_) => log' == log && archives' == archives
    case Opened(file, _, _, torn) => PartlyRepaired(log, archives, torn, file, log', archives')
  }

  /** However often opening is interrupted, and wherever, the next opening finds the same
      events and numbering, and the torn tail is still in the log or was set aside whole. */
  lemma {:induction false} InterruptedOpeningsLoseNothing(
    logs: seq<seq<Byte>>, archives: seq<seq<seq<Byte>>>, n: nat)
    requires n < |logs| == |archives| && Open(logs[0]).Opened?
    requires forall i :: 0 <= i < n ==> Interrupted(logs[i], archives[i], logs[i + 1], archives[i + 1])
    ensures archives[0] <= archives[n]
    ensures var first, last := Open(logs[0]), Open(logs[n]);
            && last.Opened? && last.events == first.events && last.next == first.next && last.file == first.file
            && (logs[n] == logs[0]
                || (logs[n] == first.file && (first.archive.Some? ==> first.archive.value in archives[n])))
  {
    if n > 0 {
      InterruptedOpeningsLoseNothing(logs, archives, n - 1);
      assert Interrupted(logs[n - 1], archives[n - 1], logs[n - 1 + 1], archives[n - 1 + 1]);
      OpeningIsStable(logs[0]);
    }
  }

  predicate OpenedAs(
    o: Opened, log: seq<Byte>, events: seq<Event>, next: nat, before: seq<seq<Byte>>, archives: seq<seq<Byte>>)
  {
    && o.Opened? && log == o.file && events == o.events && next == o.next
    && archives == SetAside(before, o.archive)
  }
}

/** The store object and its files. */
module EventLogs {
  import opened Bytes
  import opened Wrappers
  import opened RecordCodec
  import opened JsonlStore

  /** The files that survive the process. */
  class Disk {
    var log: seq<Byte>
    var archives: seq<seq<Byte>>

    constructor (log: seq<Byte>)
      ensures this.log == log && archives == []
    {
      this.log, archives := log, [];
    }
  }

  datatype OpenError = CorruptLine(line: nat) | Io

  /** Reads one line from a position on. */
  method ReadLine(bytes: seq<Byte>, start: nat) returns (line: seq<Byte>, end: nat)
    requires start < |bytes|
    ensures end == start + LineLength(bytes[start..]) <= |bytes| && line == bytes[start..end]
  {
    end := start;
    while end < |bytes| && bytes[end] != LF
      invariant start <= end <= |bytes|
      invariant forall i :: start <= i < end ==> bytes[i] != LF
    {
      end := end + 1;
    }
    if end < |bytes| {
      end := end + 1;
    }
    line := bytes[start..end];
    LineIs(bytes[start..], end - start);
  }

  lemma NextLine(kindOf: seq<Byte> -> LineKind, bytes: seq<Byte>, start: nat, end: nat)
    requires start < |bytes| && end == start + LineLength(bytes[start..])
    ensures var kind, open := kindOf(bytes[start..end]), bytes[end - 1] != LF;
            && (open ==> end == |bytes|)
            && Scan(kindOf, bytes[start..]) ==
               if Goes(kind) then Behind(Found(kind), end - start, 1, open, Scan(kindOf, bytes[end..]))
               else if kind.Unfinished? && open then Scanned([], 0, Some(bytes[start..end]), false)
               else Corrupt(1)
  {
    DropDrop(bytes, start, end - start);
    assert bytes[start..][end - start - 1] == bytes[end - 1];
  }

  /** Reads the next line and says what it is. */
  method NextRecord(kindOf: seq<Byte> -> LineKind, bytes: seq<Byte>, start: nat)
    returns (line: seq<Byte>, end: nat, kind: LineKind, terminated: bool)
    requires start < |bytes|
    ensures start < end <= |bytes| && |line| == end - start && (!terminated ==> end == |bytes|)
    ensures Scan(kindOf, bytes[start..]) ==
            if Goes(kind) then Behind(Found(kind), |line|, 1, !terminated, Scan(kindOf, bytes[end..]))
            else if kind.Unfinished? && !terminated then Scanned([], 0, Some(line), false)
            else Corrupt(1)
  {
    line, end := ReadLine(bytes, start);
    NextLine(kindOf, bytes, start, end);
    terminated, kind := line[|line| - 1] == LF, kindOf(line);
  }

  /** The pass over the file. */
  method ScanFile(kindOf: seq<Byte> -> LineKind, bytes: seq<Byte>) returns (r: Scanned)
    ensures r == Scan(kindOf, bytes)
  {
    var events: seq<Event>, validBytes, lineNumber, position, needsNewline := [], 0, 0, 0, false;
    assert bytes[0..] == bytes;
    BehindNothing(Scan(kindOf, bytes));
    while position < |bytes|
      invariant position == validBytes <= |bytes| && (needsNewline ==> position == |bytes|)
      invariant Behind(events, validBytes, lineNumber, needsNewline, Scan(kindOf, bytes[position..]))
          == Scan(kindOf, bytes)
    {
      var line, end, kind, terminated := NextRecord(kindOf, bytes, position);
      if kind.Unfinished? && !terminated {
        assert events + [] == events;
        return Scanned(events, validBytes, Some(line), false);
      }
      if kind.Unfinished? || kind.Broken? {
        return Corrupt(lineNumber + 1);
      }
      BehindBehind(events, validBytes, lineNumber, Found(kind), |line|, 1, !terminated, Scan(kindOf, bytes[end..]));
      events, position := events + Found(kind), end;
      validBytes, lineNumber, needsNewline := validBytes + |line|, lineNumber + 1, !terminated;
    }
    assert bytes[position..] == [] && events + [] == events;
    r := Scanned(events, validBytes, None, needsNewline);
  }

  /** Sets a torn tail aside and cuts it off, or restores a lost line feed. An I/O error may
      strike before any step, while the tail is set aside, or after all. */
  method Repair(disk: Disk, found: Scanned) returns (ok: bool)
    requires found.Scanned? && found.valid <= |disk.log|
    modifies disk
    ensures ok ==> disk.log == Mended(old(disk.log), found) && disk.archives == SetAside(old(disk.archives), found.torn)
    ensures !ok ==> PartlyRepaired(
                      old(disk.log), old(disk.archives), found.torn, Mended(old(disk.log), found), disk.log,
                          disk.archives)
  {
    var failing: nat, reached: nat := *, *;
    if failing == 0 {
      return false;
    }
    assert disk.archives + [] == disk.archives;
    if found.torn.Some? {
      var tail := found.torn.value;
      if failing == 1 {
        disk.archives := disk.archives + [tail[..if reached <= |tail| then reached else |tail|]];
        return false;
      }
      disk.archives := disk.archives + [tail];
      if failing == 2 {
        assert tail == tail[..|tail|];
        return false;
      }
      disk.log := disk.log[..found.valid];
    } else if found.unterminated {
      disk.log := disk.log + [LF];
    }
    ok := failing != 3;
  }

  /** Opens the log. An I/O error can stop it anywhere: the torn tail is set aside whole
      before the log is cut. */
  method OpenStore(disk: Disk) returns (r: Result<EventLog, OpenError>)
    modifies disk
    ensures r.Ok? ==> fresh(r.value) && r.value.disk == disk && r.value.Sound() && !r.value.writeFailed
    ensures r.Ok? ==>
        OpenedAs(Open(old(disk.log)), disk.log, r.value.events, r.value.nextSequence, old(disk.archives), disk.archives)
    ensures r == Err(Io) ==> Interrupted(old(disk.log), old(disk.archives), disk.log, disk.archives)
    ensures r.Err? && r.error.CorruptLine? ==> Open(old(disk.log)) == Refused(r.error.line)
    ensures r.Err? && r.error.CorruptLine? ==> disk.log == old(disk.log) && disk.archives == old(disk.archives)
  {
    var scanned := ScanFile(KindOf, disk.log);
    if scanned.Corrupt? {
      return Err(CorruptLine(scanned.line));
    }
    RepairIsClean(disk.log);
    ScanMeasures(KindOf, disk.log);
    var repaired := Repair(disk, scanned);
    if !repaired {
      return Err(Io);
    }
    var log := new EventLog(disk, scanned.events);
    r := Ok(log);
  }

  /** The open store. After a failed append `pending` may be on disk in part or whole. */
  class EventLog {
    const disk: Disk
    var events: seq<Event>
    var nextSequence: nat
    var writeFailed: bool
    ghost var base: seq<Byte>
    ghost var written: seq<Event>
    ghost var pending: Event

    constructor (disk: Disk, scanned: seq<Event>)
      requires Clean(KindOf, disk.log, scanned)
      ensures this.disk == disk && Sound()
      ensures events == SortBySequence(scanned) && nextSequence == NextSequence(scanned)
      ensures written == scanned && !writeFailed
    {
      this.disk := disk;
      events, nextSequence, writeFailed := SortBySequence(scanned), NextSequence(scanned), false;
      base, written, pending := disk.log, scanned, Event(0, []);
    }

    ghost predicate Sound()
      reads this, disk
    {
      SoundAs(disk.log, events, nextSequence, writeFailed, base, written, pending)
    }

    /** The write stops after some bytes of the record. */
    method Fail(event: Event, cut: nat)
      requires Sound() && !writeFailed && event.sequence == nextSequence && cut <= |Written(event)|
      modifies this, disk
      ensures Sound() && writeFailed && disk.archives == old(disk.archives)
      ensures events == old(events) && written == old(written) && nextSequence == old(nextSequence)
      ensures PartWritten(old(disk.log), event, disk.log) && base == old(disk.log) && pending == event
    {
      FailedIsSound(disk.log, events, nextSequence, written, pending, event, cut);
      base, pending, writeFailed := disk.log, event, true;
      disk.log := disk.log + Written(event)[..cut];
    }

    /** All bytes of the record are durable. */
    method Store(event: Event)
      requires Sound() && !writeFailed && event.sequence == nextSequence
      modifies this, disk
      ensures Sound() && !writeFailed && disk.archives == old(disk.archives)
      ensures events == old(events) + [event] && written == old(written) + [event]
      ensures disk.log == old(disk.log) + Written(event)
    {
      StoredIsSound(disk.log, events, nextSequence, written, pending, event);
      var log, stored := disk.log + Written(event), events + [event];
      base, written, pending := log, written + [event], event;
      disk.log, events, nextSequence := log, stored, nextSequence + 1;
    }

    /** Appends one event; `None` if the store is closed by an earlier failure or if this
        append fails, at whatever byte. */
    method Append(body: seq<Byte>) returns (stored: Option<Event>)
      requires Sound()
      modifies this, disk
      ensures Sound() && disk.archives == old(disk.archives)
      ensures stored.Some? ==> !old(writeFailed) && !writeFailed && stored.value == Event(old(nextSequence), body)
      ensures stored.Some? ==> disk.log == old(disk.log) + Written(stored.value)
      ensures stored.Some? ==> written == old(written) + [stored.value] && events == old(events) + [stored.value]
      ensures stored.None? ==>
          writeFailed && events == old(events) && written == old(written) && nextSequence == old(nextSequence)
      ensures old(writeFailed) ==> stored.None? && disk.log == old(disk.log)
      ensures old(writeFailed) ==> base == old(base) && pending == old(pending)
      ensures stored.None? && !old(writeFailed) ==> PartWritten(old(disk.log), Event(nextSequence, body), disk.log)
      ensures stored.None? && !old(writeFailed) ==> base == old(disk.log) && pending == Event(nextSequence, body)
    {
      stored := None;
      if writeFailed {
        return;
      }
      var event, failed: bool, reached: nat := Event(nextSequence, body), *, *;
      if failed {
        Fail(event, if reached <= |Written(event)| then reached else |Written(event)|);
      } else {
        Store(event);
        stored := Some(event);
      }
    }
  }

  /** However a sound store was stopped, opening its file again gives back every event that
      was acknowledged, and besides them exactly the event in flight if its record is
      complete, under a next number above all of them. */
  lemma ReopeningLosesNothing(log: EventLog)
    requires log.Sound()
    ensures var o, found := Open(log.disk.log), Landed(log.disk.log, log.base, log.writeFailed, log.pending);
            && o.Opened? && o.events == log.events + found && o.next == log.nextSequence + |found|
            && Clean(KindOf, o.file, log.written + found)
            && (forall i :: 0 <= i < |o.events| ==> o.events[i].sequence < o.next)
  {
    SoundReopens(log.disk.log, log.events, log.nextSequence, log.writeFailed, log.base, log.written, log.pending);
  }

  /** While numbers rise in the file they are handed out in file order, and still rise with
      every event appended, also over a reopening. */
  lemma NumbersKeepRising(es: seq<Event>, e: Event)
    requires Numbered(es) && e.sequence == NextSequence(es)
    ensures SortBySequence(es) == es && Numbered(es + [e])
  {
    SortKeepsOrdered(es);
    NumberingRises(es, e);
  }
}
