/** The decoder, one byte at a time, and a reading of the whole stream at once that it must
    agree with. What a line is, and what dispatching data does, are parameters here. */
module SseStream {
  import opened Bytes
  import opened Wrappers
  import opened Sequences
  import opened SseFrames

  const MAX_FRAME: nat := 1_048_576

  datatype Line = Invalid | Blank | Data(value: Text) | Other

  type Dispatcher = (Output, Text) -> Step
  type Classifier = Text -> Line

  /** The decoder's fields; `error` is the error it stopped at. */
  datatype State = State(pending: Text, data: Text, out: Output, error: Option<SseError>)

  const START := State([], [], NO_OUTPUT, None)

  // ---- Byte by byte ----

  /** One line, its end and trailing carriage returns removed. */
  function TakeLine(dispatch: Dispatcher, s: State, line: Line): State {
    match line
    case Invalid => s.(error := Some(InvalidUtf8))
    case Other => s
    case Blank =>
      var r := dispatch(s.out, s.data);
      State(s.pending, [], r.out, r.error)
    case Data(value) =>
      if s.out.done then s.(error := Some(DataAfterDone)) else
      var data := s.data + value + [LF];
      s.(data := data, error := if |data| > MAX_FRAME then Some(EventTooLong) else None)
  }

  function Feed(classify: Classifier, dispatch: Dispatcher, s: State, b: Byte): State {
    if s.error.Some? then s
    else if b == LF then TakeLine(dispatch, s.(pending := []), classify(s.pending))
    else
      var pending := s.pending + [b];
      s.(pending := pending, error := if |pending| > MAX_FRAME then Some(LineTooLong) else None)
  }

  function FeedAll(classify: Classifier, dispatch: Dispatcher, s: State, bytes: Text): State {
    if bytes == [] then s
    else Feed(classify, dispatch, FeedAll(classify, dispatch, s, bytes[..|bytes| - 1]), bytes[|bytes| - 1])
  }

  lemma FeedMore(classify: Classifier, dispatch: Dispatcher, s: State, a: Text, b: Byte)
    ensures FeedAll(classify, dispatch, s, a + [b]) == Feed(classify, dispatch, FeedAll(classify, dispatch, s, a), b)
  {
    assert (a + [b])[..|a + [b]| - 1] == a;
  }

  /** How a stream is cut into chunks makes no difference. */
  lemma {:induction false} FeedConcat(classify: Classifier, dispatch: Dispatcher, s: State, a: Text, b: Text)
    ensures FeedAll(classify, dispatch, s, a + b) == FeedAll(classify, dispatch, FeedAll(classify, dispatch, s, a), b)
  {
    if b == [] {
      assert a + b == a;
    } else {
      var init, last := b[..|b| - 1], b[|b| - 1];
      FeedConcat(classify, dispatch, s, a, init);
      FeedMore(classify, dispatch, s, a + init, last);
      assert a + b == (a + init) + [last];
    }
  }

  function FeedChunks(classify: Classifier, dispatch: Dispatcher, s: State, chunks: seq<Text>): State {
    if chunks == [] then s
    else FeedAll(classify, dispatch, FeedChunks(classify, dispatch, s, chunks[..|chunks| - 1]), chunks[|chunks| - 1])
  }

  lemma {:induction false} ChunkingIsIrrelevant(classify: Classifier, dispatch: Dispatcher, s: State, chunks: seq<Text>)
    ensures FeedChunks(classify, dispatch, s, chunks) == FeedAll(classify, dispatch, s, Flatten(chunks))
  {
    if chunks != [] {
      ChunkingIsIrrelevant(classify, dispatch, s, chunks[..|chunks| - 1]);
      FlattenLast(chunks);
      FeedConcat(classify, dispatch, s, Flatten(chunks[..|chunks| - 1]), chunks[|chunks| - 1]);
    }
  }

  lemma {:induction false} ErrorsStay(classify: Classifier, dispatch: Dispatcher, s: State, bytes: Text)
    requires s.error.Some?
    ensures FeedAll(classify, dispatch, s, bytes) == s
  {
    if bytes != [] {
      ErrorsStay(classify, dispatch, s, bytes[..|bytes| - 1]);
    }
  }

  // ---- The whole stream at once ----

  /** Lines put back together, each with its line feed. */
  function Unsplit(lines: seq<Text>): Text {
    if lines == [] then [] else lines[0] + ([LF] + Unsplit(lines[1..]))
  }

  predicate Unbroken(lines: seq<Text>) {
    forall i :: 0 <= i < |lines| ==> LF !in lines[i]
  }

  /** A stream is these lines and this unterminated rest. */
  predicate Splits(stream: Text, lines: seq<Text>, tail: Text) {
    stream == Unsplit(lines) + tail && Unbroken(lines) && LF !in tail
  }

  /** Every stream splits. */
  lemma {:induction false} StreamSplits(stream: Text) returns (lines: seq<Text>, tail: Text)
    ensures Splits(stream, lines, tail)
  {
    if stream == [] {
      lines, tail := [], [];
    } else {
      var more, rest := StreamSplits(stream[1..]);
      assert stream == [stream[0]] + (Unsplit(more) + rest);
      if stream[0] == LF {
        lines, tail := [[]] + more, rest;
        assert lines[1..] == more;
        assert Unsplit(lines) == [] + ([LF] + Unsplit(more));
      } else if more == [] {
        lines, tail := [], [stream[0]] + rest;
      } else {
        lines, tail := [[stream[0]] + more[0]] + more[1..], rest;
        assert lines[1..] == more[1..];
        assert Unsplit(lines) == [stream[0]] + Unsplit(more);
      }
    }
  }

  lemma FirstBreak(line: Text, rest: Text, tail: Text)
    ensures var s := (line + ([LF] + rest)) + tail;
            |line| < |s| && s[|line|] == LF && s[..|line|] == line && s[|line| + 1..] == rest + tail
  {
  }

  /** And it is so in one way only. */
  lemma {:induction false} SplitIsUnique(stream: Text, a: seq<Text>, tail: Text, b: seq<Text>, end: Text)
    requires Splits(stream, a, tail) && Splits(stream, b, end)
    ensures a == b && tail == end
  {
    if a != [] {
      FirstBreak(a[0], Unsplit(a[1..]), tail);
    }
    if b != [] {
      FirstBreak(b[0], Unsplit(b[1..]), end);
    }
    assert [] + tail == tail && [] + end == end;
    if a != [] && b != [] {
      assert |a[0]| == |b[0]|;
      SplitIsUnique(Unsplit(a[1..]) + tail, a[1..], tail, b[1..], end);
      assert a == [a[0]] + a[1..] && b == [b[0]] + b[1..];
    }
  }

  function Lines(classify: Classifier, lines: seq<Text>): seq<Line> {
    seq(|lines|, i requires 0 <= i < |lines| => classify(lines[i]))
  }

  /** The data lines of an event, joined. */
  function Joined(block: seq<Line>): Text {
    if block == [] then [] else
      var last := block[|block| - 1];
      Joined(block[..|block| - 1]) + if last.Data? then last.value + [LF] else []
  }

  /** What is wrong with a line of an event, if anything is, given what came before it. */
  function ErrorAt(out: Output, raw: seq<Text>, block: seq<Line>, i: nat): Option<SseError>
    requires i < |block| == |raw|
  {
    if |raw[i]| > MAX_FRAME then Some(LineTooLong)
    else match block[i]
         case Invalid => Some(InvalidUtf8)
         case Data(_) =>
           if out.done then Some(DataAfterDone)
           else if |Joined(block[..i + 1])| > MAX_FRAME then Some(EventTooLong)
           else None
         case _ => None
  }

  /** The first thing wrong with an event's lines. */
  function FirstError(out: Output, raw: seq<Text>, block: seq<Line>): Option<SseError>
    requires |block| == |raw|
  {
    if block == [] then None else
      var n := |block| - 1;
      var before := FirstError(out, raw[..n], block[..n]);
      if before.Some? then before else ErrorAt(out, raw, block, n)
  }

  function FirstBlank(block: seq<Line>): (n: nat)
    ensures n <= |block|
    ensures forall i :: 0 <= i < n ==> !block[i].Blank?
    ensures n < |block| ==> block[n].Blank?
  {
    if block == [] || block[0].Blank? then 0 else 1 + FirstBlank(block[1..])
  }

  /** Where a reading of the whole stream ends: the response, the data of an event that was
      not ended, and the first error. */
  datatype Reading = Reading(out: Output, data: Text, error: Option<SseError>)

  /** Events are the lines up to each blank one; each is checked, joined and dispatched. */
  function ReadEvents(dispatch: Dispatcher, out: Output, raw: seq<Text>, lines: seq<Line>): Reading
    requires |raw| == |lines|
    decreases |lines|
  {
    var n := FirstBlank(lines);
    var wrong := FirstError(out, raw[..n], lines[..n]);
    if wrong.Some? then Reading(out, [], wrong)
    else if n == |lines| then Reading(out, Joined(lines), None)
    else if |raw[n]| > MAX_FRAME then Reading(out, [], Some(LineTooLong))
    else
      var r := dispatch(out, Joined(lines[..n]));
      if r.error.Some? then Reading(r.out, [], r.error)
      else ReadEvents(dispatch, r.out, raw[n + 1..], lines[n + 1..])
  }

  function ReadStream(classify: Classifier, dispatch: Dispatcher, lines: seq<Text>, tail: Text): Reading {
    var r := ReadEvents(dispatch, NO_OUTPUT, lines, Lines(classify, lines));
    if r.error.None? && |tail| > MAX_FRAME then r.(error := Some(LineTooLong)) else r
  }

  // ---- They agree ----

  /** The same response, the same first error, and if there is none the same rest. */
  predicate Agrees(s: State, r: Reading, tail: Text) {
    && s.error == r.error && s.out == r.out
    && (s.error.None? ==> s.data == r.data && s.pending == tail)
  }

  /** The bytes of a line without its line feed. */
  lemma {:induction false} PendingGrows(classify: Classifier, dispatch: Dispatcher, s: State, bytes: Text)
    requires s.error.None? && s.pending == [] && LF !in bytes
    ensures var t := FeedAll(classify, dispatch, s, bytes);
            && t.out == s.out && t.data == s.data
            && t.error == (if |bytes| > MAX_FRAME then Some(LineTooLong) else None)
            && (t.error.None? ==> t.pending == bytes)
  {
    if bytes != [] {
      PendingGrows(classify, dispatch, s, bytes[..|bytes| - 1]);
      assert bytes == bytes[..|bytes| - 1] + [bytes[|bytes| - 1]];
    }
  }

  /** A whole line is one line to the decoder, unless it is too long. */
  function LineStep(dispatch: Dispatcher, s: State, raw: Text, line: Line): State {
    if s.error.Some? then s
    else if |raw| > MAX_FRAME then s.(error := Some(LineTooLong))
    else TakeLine(dispatch, s, line)
  }

  lemma LineIsFed(classify: Classifier, dispatch: Dispatcher, s: State, raw: Text)
    requires s.error.None? && s.pending == [] && LF !in raw
    ensures var t, l := FeedAll(classify, dispatch, s, raw + [LF]), LineStep(dispatch, s, raw, classify(raw));
            t.out == l.out && t.error == l.error && t.data == l.data && (t.error.None? ==> t == l && t.pending == [])
  {
    PendingGrows(classify, dispatch, s, raw);
    FeedMore(classify, dispatch, s, raw, LF);
  }

  /** Lines taken one after the other. */
  function TakeLines(dispatch: Dispatcher, s: State, raw: seq<Text>, lines: seq<Line>): State
    requires |raw| == |lines|
    decreases |lines|
  {
    if lines == [] then s else TakeLines(dispatch, LineStep(dispatch, s, raw[0], lines[0]), raw[1..], lines[1..])
  }

  /** Two states that differ at most in what no longer matters after an error. */
  predicate Alike(a: State, b: State) {
    a.out == b.out && a.error == b.error && (a.error.None? ==> a == b)
  }

  lemma {:induction false} StoppedTakesNothing(dispatch: Dispatcher, s: State, raw: seq<Text>, lines: seq<Line>)
    requires |raw| == |lines| && s.error.Some?
    ensures TakeLines(dispatch, s, raw, lines) == s
  {
    if lines != [] {
      StoppedTakesNothing(dispatch, s, raw[1..], lines[1..]);
    }
  }

  lemma LinesTail(classify: Classifier, raw: seq<Text>)
    requires raw != []
    ensures Lines(classify, raw)[1..] == Lines(classify, raw[1..]) && Lines(classify, raw)[0] == classify(raw[0])
  {
  }

  lemma {:induction false} LinesAreFed(classify: Classifier, dispatch: Dispatcher, s: State, raw: seq<Text>)
    requires s.error.None? && s.pending == [] && Unbroken(raw)
    ensures Alike(FeedAll(classify, dispatch, s, Unsplit(raw)), TakeLines(dispatch, s, raw, Lines(classify, raw)))
    ensures TakeLines(dispatch, s, raw, Lines(classify, raw)).error.None? ==>
              TakeLines(dispatch, s, raw, Lines(classify, raw)).pending == []
    decreases |raw|
  {
    if raw != [] {
      var line, more := raw[0] + [LF], Unsplit(raw[1..]);
      var fed := FeedAll(classify, dispatch, s, line);
      var taken := LineStep(dispatch, s, raw[0], classify(raw[0]));
      Associative(raw[0], [LF], more);
      FeedConcat(classify, dispatch, s, line, more);
      LineIsFed(classify, dispatch, s, raw[0]);
      LinesTail(classify, raw);
      if taken.error.Some? {
        ErrorsStay(classify, dispatch, fed, more);
        StoppedTakesNothing(dispatch, taken, raw[1..], Lines(classify, raw)[1..]);
      } else {
        LinesAreFed(classify, dispatch, taken, raw[1..]);
      }
    }
  }

  // ---- Lines and events ----

  lemma {:induction false} TakeLinesConcat(
    dispatch: Dispatcher, s: State, r1: seq<Text>, l1: seq<Line>, r2: seq<Text>, l2: seq<Line>)
    requires |r1| == |l1| && |r2| == |l2|
    ensures TakeLines(dispatch, s, r1 + r2, l1 + l2) == TakeLines(dispatch, TakeLines(dispatch, s, r1, l1), r2, l2)
    decreases |l1|
  {
    if l1 == [] {
      assert r1 + r2 == r2 && l1 + l2 == l2;
    } else {
      TakeLinesConcat(dispatch, LineStep(dispatch, s, r1[0], l1[0]), r1[1..], l1[1..], r2, l2);
      assert (r1 + r2)[1..] == r1[1..] + r2 && (l1 + l2)[1..] == l1[1..] + l2;
    }
  }

  lemma TakeLast(dispatch: Dispatcher, s: State, raw: seq<Text>, lines: seq<Line>)
    requires |raw| == |lines| > 0
    ensures var n := |lines| - 1;
            TakeLines(dispatch, s, raw, lines)
                == LineStep(dispatch, TakeLines(dispatch, s, raw[..n], lines[..n]), raw[n], lines[n])
  {
    var n := |lines| - 1;
    TakeLinesConcat(dispatch, s, raw[..n], lines[..n], [raw[n]], [lines[n]]);
    assert raw == raw[..n] + [raw[n]] && lines == lines[..n] + [lines[n]];
    var one, single := [raw[n]], [lines[n]];
    assert one[1..] == [] && single[1..] == [];
  }

  /** The lines of one event only gather its data, up to the first thing wrong. */
  lemma {:induction false} EventGathers(dispatch: Dispatcher, s: State, raw: seq<Text>, block: seq<Line>)
    requires |raw| == |block| && s.error.None? && s.data == [] && forall i :: 0 <= i < |block| ==> !block[i].Blank?
    ensures var t := TakeLines(dispatch, s, raw, block);
            && t.out == s.out && t.error == FirstError(s.out, raw, block)
            && (t.error.None? ==> t.data == Joined(block) && t.pending == s.pending)
  {
    if block != [] {
      var n := |block| - 1;
      EventGathers(dispatch, s, raw[..n], block[..n]);
      TakeLast(dispatch, s, raw, block);
      assert block[..n + 1] == block;
      var last := block[n];
      if last.Data? {
        Associative(Joined(block[..n]), last.value, [LF]);
      } else {
        assert Joined(block[..n]) + [] == Joined(block[..n]);
      }
    }
  }

  lemma {:induction false} LinesReadAsEvents(dispatch: Dispatcher, s: State, raw: seq<Text>, lines: seq<Line>)
    requires |raw| == |lines| && s.error.None? && s.data == [] && s.pending == []
    ensures Agrees(TakeLines(dispatch, s, raw, lines), ReadEvents(dispatch, s.out, raw, lines), [])
    decreases |lines|
  {
    var n := FirstBlank(lines);
    var r1, l1, r2, l2 := raw[..n], lines[..n], raw[n..], lines[n..];
    EventGathers(dispatch, s, r1, l1);
    TakeLinesConcat(dispatch, s, r1, l1, r2, l2);
    assert raw == r1 + r2 && lines == l1 + l2;
    var gathered := TakeLines(dispatch, s, r1, l1);
    if gathered.error.Some? {
      StoppedTakesNothing(dispatch, gathered, r2, l2);
    } else if n < |lines| {
      var ended := LineStep(dispatch, gathered, raw[n], lines[n]);
      assert r2[0] == raw[n] && l2[0] == lines[n] && r2[1..] == raw[n + 1..] && l2[1..] == lines[n + 1..];
      if ended.error.Some? {
        StoppedTakesNothing(dispatch, ended, raw[n + 1..], lines[n + 1..]);
      } else {
        LinesReadAsEvents(dispatch, ended, raw[n + 1..], lines[n + 1..]);
      }
    } else {
      assert l1 == lines;
    }
  }

  lemma SplitStreamIsRead(classify: Classifier, dispatch: Dispatcher, stream: Text, lines: seq<Text>, tail: Text)
    requires Splits(stream, lines, tail)
    ensures Agrees(FeedAll(classify, dispatch, START, stream), ReadStream(classify, dispatch, lines, tail), tail)
  {
    FeedConcat(classify, dispatch, START, Unsplit(lines), tail);
    LinesAreFed(classify, dispatch, START, lines);
    LinesReadAsEvents(dispatch, START, lines, Lines(classify, lines));
    var fed := FeedAll(classify, dispatch, START, Unsplit(lines));
    if fed.error.Some? {
      ErrorsStay(classify, dispatch, fed, tail);
    } else {
      PendingGrows(classify, dispatch, fed, tail);
    }
  }

  /** What reading a stream as a whole leads to. */
  ghost predicate ReadsAs(classify: Classifier, dispatch: Dispatcher, stream: Text, s: State) {
    exists lines, tail :: Splits(stream, lines, tail) && Agrees(s, ReadStream(classify, dispatch, lines, tail), tail)
  }

  /** For every stream and however it is fed, the decoder stands where the reading of the
      whole stream ends: same texts, same response so far, same first error, and while there
      is none the same unfinished event and line. */
  lemma DecoderReadsStream(classify: Classifier, dispatch: Dispatcher, chunks: seq<Text>)
    ensures ReadsAs(classify, dispatch, Flatten(chunks), FeedChunks(classify, dispatch, START, chunks))
    ensures forall lines, tail :: Splits(Flatten(chunks), lines, tail) ==>
              Agrees(FeedChunks(classify, dispatch, START, chunks), ReadStream(classify, dispatch, lines, tail), tail)
  {
    ChunkingIsIrrelevant(classify, dispatch, START, chunks);
    forall lines, tail | Splits(Flatten(chunks), lines, tail)
      ensures Agrees(FeedChunks(classify, dispatch, START, chunks), ReadStream(classify, dispatch, lines, tail), tail)
    {
      SplitStreamIsRead(classify, dispatch, Flatten(chunks), lines, tail);
    }
    var lines, tail := StreamSplits(Flatten(chunks));
  }

  // ---- Bounds ----

  lemma {:induction false} BuffersAreBounded(classify: Classifier, dispatch: Dispatcher, bytes: Text)
    ensures var s := FeedAll(classify, dispatch, START, bytes);
            s.error.None? ==> |s.pending| <= MAX_FRAME && |s.data| <= MAX_FRAME
  {
    if bytes != [] {
      BuffersAreBounded(classify, dispatch, bytes[..|bytes| - 1]);
    }
  }
}
