/** What a line of the stream is. */
module SseLines {
  import opened Bytes
  import opened Utf8
  import opened SseFrames
  import opened SseStream

  const CR: Byte := 13
  const DATA_FIELD: Text := [100, 97, 116, 97, 58]

  /** All carriage returns at the end of a line are dropped. */
  function StripCarriageReturns(line: Text): Text {
    if line != [] && line[|line| - 1] == CR then StripCarriageReturns(line[..|line| - 1]) else line
  }

  /** One space behind the colon belongs to the field name. */
  function DataOf(line: Text): Text
    requires |line| >= |DATA_FIELD|
  {
    var value := line[|DATA_FIELD|..];
    if value != [] && value[0] == 32 then value[1..] else value
  }

  function Classify(raw: Text): Line {
    if !Valid(raw) then Invalid else
    var line := StripCarriageReturns(raw);
    if line == [] then Blank
    else if DATA_FIELD <= line then Data(DataOf(line))
    else Other
  }
}

/** The end of a stream, for any classifier and dispatcher. */
module SseFinish {
  import opened Bytes
  import opened Sequences
  import opened Wrappers
  import opened SseFrames
  import opened SseStream

  /** An unterminated last line is taken like any other. */
  function LastLine(classify: Classifier, dispatch: Dispatcher, s: State): State {
    if s.pending == [] then s else
    var line := classify(s.pending);
    if line.Invalid? then s.(pending := [], error := Some(TruncatedUtf8))
    else TakeLine(dispatch, s.(pending := []), line)
  }

  /** Then an event without a blank line behind it is dispatched. */
  function LastEvent(classify: Classifier, dispatch: Dispatcher, s: State): State {
    var t := LastLine(classify, dispatch, s);
    if t.error.Some? then t else
    var r := dispatch(t.out, t.data);
    State(t.pending, [], r.out, r.error)
  }

  function Finish(classify: Classifier, dispatch: Dispatcher, s: State): Result<Response, SseError> {
    var t := LastEvent(classify, dispatch, s);
    if t.error.Some? then Err(t.error.value)
    else if !t.out.done then Err(MissingDone)
    else if !CallsComplete(t.out.calls) then Err(IncompleteCall)
    else Ok(ResponseOf(t.out))
  }

  /** A dispatcher that keeps the response assembled, does nothing without data, and ends the
      stream without adding to it. */
  ghost predicate Keeps(dispatch: Dispatcher) {
    forall o: Output, d: Text :: KeepsAt(dispatch, o, d)
  }

  predicate KeepsAt(dispatch: Dispatcher, o: Output, d: Text) {
    var r := dispatch(o, d);
    && (d == [] ==> r == Step(o, None))
    && (Assembling(o) && r.error.None? ==> Assembling(r.out))
    && (o.done && r.error.None? ==> r.out.done)
    && (!o.done && r.out.done ==> r.out == o.(done := true))
  }

  /** What is true between bytes while there is no error: the response is assembled, and
      nothing is gathered behind the end. */
  predicate Sound(s: State) {
    s.error.None? ==> Assembling(s.out) && (s.out.done ==> s.data == [])
  }

  lemma LineIsSound(dispatch: Dispatcher, s: State, line: Line)
    requires Keeps(dispatch) && Sound(s) && s.error.None?
    ensures Sound(TakeLine(dispatch, s, line))
  {
    assert KeepsAt(dispatch, s.out, s.data);
  }

  lemma {:induction false} FeedingIsSound(classify: Classifier, dispatch: Dispatcher, bytes: Text)
    requires Keeps(dispatch)
    ensures Sound(FeedAll(classify, dispatch, START, bytes))
  {
    if bytes != [] {
      var s := FeedAll(classify, dispatch, START, bytes[..|bytes| - 1]);
      FeedingIsSound(classify, dispatch, bytes[..|bytes| - 1]);
      if s.error.None? && bytes[|bytes| - 1] == LF {
        LineIsSound(dispatch, s.(pending := []), classify(s.pending));
      }
    }
  }

  /** The end of a stream adds no text: whatever is still dispatched is the marker. */
  lemma EndAddsNothing(classify: Classifier, dispatch: Dispatcher, s: State)
    requires Keeps(dispatch) && Sound(s) && s.error.None?
    requires LastEvent(classify, dispatch, s).error.None? && LastEvent(classify, dispatch, s).out.done
    ensures LastEvent(classify, dispatch, s).out == s.out.(done := true)
  {
    var t := LastLine(classify, dispatch, s);
    assert KeepsAt(dispatch, s.out, s.data);
    assert KeepsAt(dispatch, t.out, t.data);
    if s.out.done {
      assert t.data == [] && t.out == s.out;
      assert s.out.(done := true) == s.out;
    }
  }

  predicate IsWhole(o: Output, r: Response) {
    && r.content == Flatten(o.texts) && r.finish.Some?
    && (forall i :: 0 <= i < |r.calls| ==> Complete(r.calls[i]))
    && (forall i :: 0 <= i < |r.calls| ==>
          r.calls[i] == Call(Pieces(o.taken, i, Id), Pieces(o.taken, i, Name), Pieces(o.taken, i, Arguments)))
    && (forall f :: f in o.taken ==> f.index.Some? && f.index.value < |r.calls|)
  }

  /** Whenever finishing succeeds: the texts the callback was told are the whole content,
      each call is the pieces of its own fragments in order, calls are numbered without a
      gap, and a finish reason was seen. */
  lemma FinishedResponsesAreWhole(classify: Classifier, dispatch: Dispatcher, bytes: Text)
    requires Keeps(dispatch)
    ensures var s := FeedAll(classify, dispatch, START, bytes);
            s.error.None? && Finish(classify, dispatch, s).Ok? ==> IsWhole(s.out, Finish(classify, dispatch, s).value)
  {
    var s := FeedAll(classify, dispatch, START, bytes);
    FeedingIsSound(classify, dispatch, bytes);
    if s.error.None? && Finish(classify, dispatch, s).Ok? {
      var t := LastEvent(classify, dispatch, s);
      EndAddsNothing(classify, dispatch, s);
      assert KeepsAt(dispatch, s.out, s.data);
      EndIsAssembling(classify, dispatch, s);
    }
  }

  lemma EndIsAssembling(classify: Classifier, dispatch: Dispatcher, s: State)
    requires Keeps(dispatch) && Sound(s) && s.error.None? && LastEvent(classify, dispatch, s).error.None?
    ensures Assembling(LastEvent(classify, dispatch, s).out)
  {
    if s.pending != [] {
      LineIsSound(dispatch, s.(pending := []), classify(s.pending));
    }
    var t := LastLine(classify, dispatch, s);
    assert KeepsAt(dispatch, t.out, t.data);
  }

  function DispatcherOf(parse: Text -> Option<Frame>): Dispatcher {
    (o: Output, d: Text) => Dispatch(parse, o, d)
  }

  lemma DispatchKeeps(parse: Text -> Option<Frame>)
    ensures Keeps(DispatcherOf(parse))
  {
    forall o: Output, d: Text ensures KeepsAt(DispatcherOf(parse), o, d) {
      DispatchKeepsAt(parse, o, d);
    }
  }

  lemma DispatchKeepsAt(parse: Text -> Option<Frame>, o: Output, d: Text)
    ensures KeepsAt(DispatcherOf(parse), o, d)
  {
    var r := Dispatch(parse, o, d);
    if Assembling(o) && r.error.None? {
      DispatchAssembles(parse, o, d);
    }
    if o.done {
      DispatchKeepsDone(parse, o, d);
    } else if r.out.done {
      DoneCarriesNothing(parse, o, d);
    }
  }

  lemma DispatchKeepsDone(parse: Text -> Option<Frame>, o: Output, d: Text)
    requires o.done
    ensures Dispatch(parse, o, d).out.done
  {
    if d != [] && !IsDone(d) && parse(d).Some? {
      FrameKeepsDone(o, parse(d).value);
    }
  }
}

/** The decoder object. */
module SseDecoder {
  import opened Bytes
  import opened Wrappers
  import opened Utf8
  import opened Ids
  import opened SseFrames
  import opened SseStream
  import opened SseLines
  import opened SseFinish

  class Decoder {
    const parse: Text -> Option<Frame>
    var pending: Text
    var data: Text
    var content: Text
    var calls: map<nat, Call>
    var finishReason: Option<Text>
    var usage: Option<Text>
    var done: bool
    var told: seq<Text>
    ghost var taken: seq<Fragment>

    constructor (parse: Text -> Option<Frame>)
      ensures this.parse == parse && Now(None) == START
    {
      this.parse := parse;
      pending, data, content, calls, finishReason, usage, done := [], [], [], map[], None, None, false;
      told, taken := [], [];
    }

    ghost function Out(): Output
      reads this
    {
      Output(told, content, calls, finishReason, usage, done, taken)
    }

    ghost function Now(error: Option<SseError>): State
      reads this
    {
      State(pending, data, Out(), error)
    }

    method Push(bytes: Text) returns (error: Option<SseError>)
      modifies this
      ensures Now(error) == FeedAll(Classify, DispatcherOf(parse), old(Now(None)), bytes)
    {
      error := None;
      for n := 0 to |bytes|
        invariant error == None
        invariant Now(None) == FeedAll(Classify, DispatcherOf(parse), old(Now(None)), bytes[..n])
      {
        FeedMore(Classify, DispatcherOf(parse), old(Now(None)), bytes[..n], bytes[n]);
        assert bytes[..n + 1] == bytes[..n] + [bytes[n]];
        if bytes[n] == LF {
          var line := pending;
          pending := [];
          if !Valid(line) {
            error := Some(InvalidUtf8);
          } else {
            error := TakeText(StripCarriageReturns(line));
          }
        } else {
          pending := pending + [bytes[n]];
          if |pending| > MAX_FRAME {
            error := Some(LineTooLong);
          }
        }
        if error.Some? {
          Stopped(Classify, DispatcherOf(parse), old(Now(None)), bytes, n + 1);
          return;
        }
      }
      assert bytes[..|bytes|] == bytes;
    }

    /** One line of text. */
    method TakeText(line: Text) returns (error: Option<SseError>)
      modifies this
      ensures Now(error) == TakeLine(DispatcherOf(parse), old(Now(None)), if line == [] then Blank
                else if DATA_FIELD <= line then Data(DataOf(line)) else Other)
    {
      if line == [] {
        error := DispatchData();
        return;
      }
      if DATA_FIELD <= line {
        if done {
          return Some(DataAfterDone);
        }
        data := data + DataOf(line) + [LF];
        if |data| > MAX_FRAME {
          return Some(EventTooLong);
        }
      }
      error := None;
    }

    /** Dispatches what was gathered; the buffer is empty afterwards in any case. */
    method DispatchData() returns (error: Option<SseError>)
      modifies this
      ensures pending == old(pending) && data == []
      ensures Step(Out(), error) == Dispatch(parse, old(Out()), old(data))
    {
      error := None;
      if data == [] {
        return;
      }
      var text := data;
      data := [];
      if IsDone(text) {
        if finishReason.None? {
          return Some(NoFinishReason);
        }
        done := true;
        return;
      }
      var frame := parse(text);
      if frame.None? {
        return Some(BadJson);
      }
      error := ApplyFrame(frame.value);
    }

    method ApplyFrame(frame: Frame) returns (error: Option<SseError>)
      modifies this
      ensures pending == old(pending) && data == old(data)
      ensures Step(Out(), error) == TakeFrame(old(Out()), frame)
    {
      if frame.isError {
        return Some(ProviderError);
      }
      if frame.usage.Some? {
        usage := frame.usage;
      }
      if frame.choices.None? {
        return Some(NoChoices);
      }
      if |frame.choices.value| > 1 {
        return Some(ManyChoices);
      }
      error := None;
      if frame.choices.value != [] {
        error := ApplyChoice(frame.choices.value[0]);
      }
    }

    method ApplyChoice(choice: Choice) returns (error: Option<SseError>)
      modifies this
      ensures pending == old(pending) && data == old(data)
      ensures Step(Out(), error) == TakeChoice(old(Out()), choice)
    {
      error := None;
      if choice.index != Some(0) {
        return Some(BadChoiceIndex);
      }
      if finishReason.Some? {
        return Some(DataAfterFinish);
      }
      if choice.delta.Some? {
        error := ApplyDelta(choice.delta.value);
        if error.Some? {
          return;
        }
      }
      if choice.finish.WrongType? {
        return Some(BadFinishReason);
      }
      if choice.finish.Is? {
        finishReason := Some(choice.finish.value);
      }
    }

    method ApplyDelta(delta: Delta) returns (error: Option<SseError>)
      modifies this
      ensures pending == old(pending) && data == old(data)
      ensures Step(Out(), error) == TakeDelta(old(Out()), delta)
    {
      error := None;
      if delta.content.WrongType? {
        return Some(BadContent);
      }
      if delta.content.Is? && delta.content.value != [] {
        content := content + delta.content.value;
        told := told + [delta.content.value];
      }
      if delta.legacyCall {
        return Some(LegacyCall);
      }
      if delta.calls.WrongType? {
        return Some(BadCalls);
      }
      if delta.calls.Is? {
        error := ApplyFragments(delta.calls.value);
      }
    }

    /** Appends each fragment to its call, up to the first bad one. */
    method ApplyFragments(fragments: seq<Fragment>) returns (error: Option<SseError>)
      modifies this
      ensures pending == old(pending) && data == old(data)
      ensures Step(Out(), error) == TakeFragments(old(Out()), fragments)
    {
      error := None;
      for n := 0 to |fragments|
        invariant pending == old(pending) && data == old(data) && error == None
        invariant Step(Out(), None) == TakeFragments(old(Out()), fragments[..n])
      {
        var f := fragments[n];
        assert fragments[..n + 1][..n] == fragments[..n];
        error := FragmentError(f);
        if error.Some? {
          FragmentsStop(old(Out()), fragments, n + 1);
          return;
        }
        var call := CallAt(calls, f.index.value);
        var grown := Call(call.id + ValueOf(f.id), call.name + NameOf(f), call.arguments + ArgumentsOf(f));
        calls := calls[f.index.value := grown];
        taken := taken + [f];
      }
      assert fragments[..|fragments|] == fragments;
    }

    /** Ends the stream: what is still pending is taken, then the response is checked. */
    method End() returns (response: Result<Response, SseError>)
      modifies this
      ensures response == Finish(Classify, DispatcherOf(parse), old(Now(None)))
    {
      var error: Option<SseError> := None;
      if pending != [] {
        var line := pending;
        pending := [];
        if !Valid(line) {
          return Err(TruncatedUtf8);
        }
        error := TakeText(StripCarriageReturns(line));
        if error.Some? {
          return Err(error.value);
        }
      }
      assert Now(None) == LastLine(Classify, DispatcherOf(parse), old(Now(None)));
      error := DispatchData();
      if error.Some? {
        return Err(error.value);
      }
      if !done {
        return Err(MissingDone);
      }
      var collected := CollectCalls();
      if collected.None? {
        return Err(IncompleteCall);
      }
      response := Ok(Response(content, collected.value, finishReason, usage));
    }

    /** The calls in order of their numbers, which must count up from zero. */
    method CollectCalls() returns (collected: Option<seq<Call>>)
      ensures collected.Some? <==> CallsComplete(calls)
      ensures collected.Some? ==> collected.value == ResponseOf(Out()).calls
    {
      var list: seq<Call> := [];
      var left := calls.Keys;
      while left != {}
        invariant left <= calls.Keys && |list| + |left| == |calls|
        invariant forall i :: 0 <= i < |list| ==> i in calls && i !in left && list[i] == calls[i] && Complete(calls[i])
        invariant forall i :: i in calls && i !in left ==> i < |list|
        decreases left
      {
        var index := LeastNumber(left);
        if index != |list| || !Complete(calls[index]) {
          NextIsLeast(calls, left, |list|, index);
          return None;
        }
        left := left - {index};
        list := list + [calls[index]];
      }
      collected := Some(list);
    }
  }

  lemma Stopped(classify: Classifier, dispatch: Dispatcher, s: State, bytes: Text, n: nat)
    requires n <= |bytes| && FeedAll(classify, dispatch, s, bytes[..n]).error.Some?
    ensures FeedAll(classify, dispatch, s, bytes) == FeedAll(classify, dispatch, s, bytes[..n])
  {
    FeedConcat(classify, dispatch, s, bytes[..n], bytes[n..]);
    ErrorsStay(classify, dispatch, FeedAll(classify, dispatch, s, bytes[..n]), bytes[n..]);
    assert bytes == bytes[..n] + bytes[n..];
  }

  lemma {:induction false} FragmentsStop(o: Output, fs: seq<Fragment>, n: nat)
    requires n <= |fs| && TakeFragments(o, fs[..n]).error.Some?
    ensures TakeFragments(o, fs) == TakeFragments(o, fs[..n])
    decreases |fs|
  {
    if n < |fs| {
      var init := fs[..|fs| - 1];
      assert init[..n] == fs[..n];
      FragmentsStop(o, init, n);
    } else {
      assert fs[..n] == fs;
    }
  }

  function LeastNumber(s: set<nat>): (m: nat)
    requires s != {}
    ensures m in s && forall x :: x in s ==> m <= x
  {
    var less := (a: nat, b: nat) => a < b;
    assert TotalOrder(less);
    Least(s, less)
  }

  lemma NextIsLeast(calls: map<nat, Call>, left: set<nat>, n: nat, index: nat)
    requires index in left && (forall x :: x in left ==> index <= x)
    requires forall i :: 0 <= i < n ==> i !in left
    requires forall i :: i in calls && i !in left ==> i < n
    ensures n in calls ==> index == n
  {
  }
}

/** What a whole response stream promises, for the decoder's own lines and frames. */
module SseGuarantees {
  import opened Sequences
  import opened Wrappers
  import opened SseFrames
  import opened SseStream
  import opened SseLines
  import opened SseFinish

  /** However a stream arrives, when ending it gives a response the marker and a finish
      reason were seen, no text is missing from what was told, and every call is whole. */
  lemma ResponsesAreWhole(parse: Text -> Option<Frame>, chunks: seq<Text>)
    ensures var dispatch := DispatcherOf(parse);
            var s := FeedChunks(Classify, dispatch, START, chunks);
            s.error.None? && Finish(Classify, dispatch, s).Ok? ==>
              LastEvent(Classify, dispatch, s).out.done && IsWhole(s.out, Finish(Classify, dispatch, s).value)
  {
    DispatchKeeps(parse);
    ChunkingIsIrrelevant(Classify, DispatcherOf(parse), START, chunks);
    FinishedResponsesAreWhole(Classify, DispatcherOf(parse), Flatten(chunks));
  }
}
