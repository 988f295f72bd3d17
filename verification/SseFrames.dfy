/** What one decoded frame of a response stream does to the response being assembled.
    The JSON reader is a parameter: it gives the parts of a frame the decoder looks at. */
module SseFrames {
  import opened Bytes
  import opened Sequences
  import opened Wrappers
  import opened Ids

  type Text = seq<Byte>

  const MAX_CALLS: nat := 128

  /** A member of a JSON object: missing or null, of another type, or a value. */
  datatype Field<T> = Absent | WrongType | Is(value: T)

  datatype FunctionPart = FunctionPart(name: Field<Text>, arguments: Field<Text>)
  datatype Fragment = Fragment(index: Option<nat>, id: Field<Text>, isFunction: bool, callee: Option<FunctionPart>)
  datatype Delta = Delta(content: Field<Text>, legacyCall: bool, calls: Field<seq<Fragment>>)
  datatype Choice = Choice(index: Option<nat>, delta: Option<Delta>, finish: Field<Text>)
  datatype Frame = Frame(isError: bool, usage: Option<Text>, choices: Option<seq<Choice>>)

  datatype SseError =
    | InvalidUtf8 | LineTooLong | EventTooLong | DataAfterDone | NoFinishReason
    | BadJson | ProviderError | NoChoices | ManyChoices | BadChoiceIndex | DataAfterFinish
    | BadContent | LegacyCall | BadCalls | BadCallIndex | BadCallId | BadCallKind | BadCallName | BadArguments
    | BadFinishReason | TruncatedUtf8 | MissingDone | IncompleteCall

  datatype Call = Call(id: Text, name: Text, arguments: Text)

  /** The response so far. `texts` is what the callback was told, `taken` the fragments of
      calls in the order they came. */
  datatype Output = Output(
    texts: seq<Text>, content: Text, calls: map<nat, Call>, finish: Option<Text>, usage: Option<Text>, done: bool,
    taken: seq<Fragment>)

  datatype Step = Step(out: Output, error: Option<SseError>)

  const NO_OUTPUT := Output([], [], map[], None, None, false, [])

  function ValueOf(f: Field<Text>): Text {
    if f.Is? then f.value else []
  }

  function NameOf(f: Fragment): Text {
    if f.callee.Some? then ValueOf(f.callee.value.name) else []
  }

  function ArgumentsOf(f: Fragment): Text {
    if f.callee.Some? then ValueOf(f.callee.value.arguments) else []
  }

  function CallAt(calls: map<nat, Call>, index: nat): Call {
    if index in calls then calls[index] else Call([], [], [])
  }

  /** Why a fragment is not taken, if it is not; checked in this order. */
  function FragmentError(f: Fragment): Option<SseError> {
    if f.index.None? || f.index.value >= MAX_CALLS then Some(BadCallIndex)
    else if f.id.WrongType? then Some(BadCallId)
    else if !f.isFunction then Some(BadCallKind)
    else if f.callee.Some? && f.callee.value.name.WrongType? then Some(BadCallName)
    else if f.callee.Some? && f.callee.value.arguments.WrongType? then Some(BadArguments)
    else None
  }

  /** Appends a fragment to its own call. */
  function TakeFragment(o: Output, f: Fragment): Step {
    if FragmentError(f).Some? then Step(o, FragmentError(f)) else
    var call := CallAt(o.calls, f.index.value);
    var grown := Call(call.id + ValueOf(f.id), call.name + NameOf(f), call.arguments + ArgumentsOf(f));
    Step(o.(calls := o.calls[f.index.value := grown],
            taken := o.taken + [f]), None)
  }

  function TakeFragments(o: Output, fs: seq<Fragment>): Step {
    if fs == [] then Step(o, None) else
    var r := TakeFragments(o, fs[..|fs| - 1]);
    if r.error.Some? then r else TakeFragment(r.out, fs[|fs| - 1])
  }

  function TakeText(o: Output, text: Text): Output {
    if text == [] then o else o.(content := o.content + text, texts := o.texts + [text])
  }

  function TakeDelta(o: Output, d: Delta): Step {
    if d.content.WrongType? then Step(o, Some(BadContent)) else
    var told := TakeText(o, ValueOf(d.content));
    if d.legacyCall then Step(told, Some(LegacyCall))
    else match d.calls
         case Absent => Step(told, None)
         case WrongType => Step(told, Some(BadCalls))
         case Is(fs) => TakeFragments(told, fs)
  }

  function TakeChoice(o: Output, c: Choice): Step {
    if c.index != Some(0) then Step(o, Some(BadChoiceIndex))
    else if o.finish.Some? then Step(o, Some(DataAfterFinish))
    else
      var r := if c.delta.Some? then TakeDelta(o, c.delta.value) else Step(o, None);
      if r.error.Some? then r
      else if c.finish.WrongType? then Step(r.out, Some(BadFinishReason))
      else if c.finish.Is? then Step(r.out.(finish := Some(c.finish.value)), None)
      else r
  }

  function TakeFrame(o: Output, frame: Frame): Step {
    if frame.isError then Step(o, Some(ProviderError)) else
    var used := if frame.usage.Some? then o.(usage := frame.usage) else o;
    if frame.choices.None? then Step(used, Some(NoChoices))
    else if |frame.choices.value| > 1 then Step(used, Some(ManyChoices))
    else if frame.choices.value == [] then Step(used, None)
    else TakeChoice(used, frame.choices.value[0])
  }

  // ---- The end-of-stream marker ----

  /** How many bytes the white-space character a text starts with has; 0 for none. */
  function SpaceAt(s: Text): (n: nat)
    ensures n <= |s|
  {
    if |s| >= 1 && (9 <= s[0] <= 13 || s[0] == 32) then 1
    else if |s| >= 2 && s[0] == 0xC2 && (s[1] == 0x85 || s[1] == 0xA0) then 2
    else if |s| >= 3 && ((s[0] == 0xE1 && s[1] == 0x9A && s[2] == 0x80)
                         || (s[0] == 0xE2 && s[1] == 0x80
                              && (0x80 <= s[2] <= 0x8A || s[2] == 0xA8 || s[2] == 0xA9 || s[2] == 0xAF))
                         || (s[0] == 0xE2 && s[1] == 0x81 && s[2] == 0x9F)
                         || (s[0] == 0xE3 && s[1] == 0x80 && s[2] == 0x80)) then 3
    else 0
  }

  function TrimStart(s: Text): Text
    decreases |s|
  {
    if SpaceAt(s) == 0 then s else TrimStart(s[SpaceAt(s)..])
  }

  /** A text that ends in one white-space character of this many bytes. */
  predicate EndsInSpace(s: Text, n: nat) {
    n <= |s| && SpaceAt(s[|s| - n..]) == n
  }

  function TrimEnd(s: Text): Text
    decreases |s|
  {
    if EndsInSpace(s, 1) then TrimEnd(s[..|s| - 1])
    else if EndsInSpace(s, 2) then TrimEnd(s[..|s| - 2])
    else if EndsInSpace(s, 3) then TrimEnd(s[..|s| - 3])
    else s
  }

  /** Trimmed, the data is the marker "[DONE]". */
  predicate IsDone(data: Text) {
    TrimEnd(TrimStart(data)) == [91, 68, 79, 78, 69, 93]
  }

  /** Dispatches the data of one event. */
  function Dispatch(parse: Text -> Option<Frame>, o: Output, data: Text): Step {
    if data == [] then Step(o, None)
    else if IsDone(data) then (if o.finish.None? then Step(o, Some(NoFinishReason)) else Step(o.(done := true), None))
    else match parse(data)
         case None => Step(o, Some(BadJson))
         case Some(frame) => TakeFrame(o, frame)
  }

  // ---- What assembling keeps ----

  datatype Part = Id | Name | Arguments {
    function Of(f: Fragment): Text {
      match this case Id => ValueOf(f.id) case Name => NameOf(f) case Arguments => ArgumentsOf(f)
    }
  }

  /** The pieces of one part of one call, in the order they came, whatever came between. */
  function Pieces(taken: seq<Fragment>, index: nat, part: Part): Text {
    if taken == [] then [] else
      var last := taken[|taken| - 1];
      Pieces(taken[..|taken| - 1], index, part) + if last.index == Some(index) then part.Of(last) else []
  }

  /** Every call is exactly what its own fragments give, and every fragment's call is there. */
  predicate Assembled(calls: map<nat, Call>, taken: seq<Fragment>) {
    && (forall f :: f in taken ==> f.index.Some? && f.index.value in calls)
    && (forall i :: i in calls ==> i < MAX_CALLS)
    && (forall i :: i in calls ==>
         calls[i] == Call(Pieces(taken, i, Id), Pieces(taken, i, Name), Pieces(taken, i, Arguments)))
  }

  lemma PiecesAppend(taken: seq<Fragment>, f: Fragment, index: nat, part: Part)
    ensures Pieces(taken + [f], index, part) ==
            Pieces(taken, index, part) + if f.index == Some(index) then part.Of(f) else []
  {
    assert (taken + [f])[..|taken + [f]| - 1] == taken;
  }

  lemma {:induction false} PiecesOfNone(taken: seq<Fragment>, index: nat, part: Part)
    requires forall f :: f in taken ==> f.index != Some(index)
    ensures Pieces(taken, index, part) == []
  {
    if taken != [] {
      assert forall f :: f in taken[..|taken| - 1] ==> f in taken;
      PiecesOfNone(taken[..|taken| - 1], index, part);
    }
  }

  lemma FragmentAssembles(o: Output, f: Fragment)
    requires Assembled(o.calls, o.taken) && TakeFragment(o, f).error.None?
    ensures Assembled(TakeFragment(o, f).out.calls, TakeFragment(o, f).out.taken)
  {
    var o' := TakeFragment(o, f).out;
    forall i | i in o'.calls
      ensures o'.calls[i] == Call(Pieces(o'.taken, i, Id), Pieces(o'.taken, i, Name), Pieces(o'.taken, i, Arguments))
    {
      PiecesAppend(o.taken, f, i, Id);
      PiecesAppend(o.taken, f, i, Name);
      PiecesAppend(o.taken, f, i, Arguments);
      if i !in o.calls {
        PiecesOfNone(o.taken, i, Id);
        PiecesOfNone(o.taken, i, Name);
        PiecesOfNone(o.taken, i, Arguments);
      }
    }
  }

  /** What is true of a response while no error was found. */
  predicate Assembling(o: Output) {
    && Flatten(o.texts) == o.content
    && Assembled(o.calls, o.taken)
    && (o.done ==> o.finish.Some?)
  }

  lemma TextAssembles(o: Output, text: Text)
    requires Assembling(o)
    ensures Assembling(TakeText(o, text))
  {
    FlattenAppend(o.texts, text);
  }

  lemma {:induction false} FragmentsAssemble(o: Output, fs: seq<Fragment>)
    requires Assembling(o) && TakeFragments(o, fs).error.None?
    ensures Assembling(TakeFragments(o, fs).out)
    ensures TakeFragments(o, fs).out.taken == o.taken + fs
  {
    if fs != [] {
      FragmentsAssemble(o, fs[..|fs| - 1]);
      FragmentAssembles(TakeFragments(o, fs[..|fs| - 1]).out, fs[|fs| - 1]);
      assert fs == fs[..|fs| - 1] + [fs[|fs| - 1]];
    } else {
      assert o.taken + [] == o.taken;
    }
  }

  lemma DeltaAssembles(o: Output, d: Delta)
    requires Assembling(o) && TakeDelta(o, d).error.None?
    ensures Assembling(TakeDelta(o, d).out)
  {
    TextAssembles(o, ValueOf(d.content));
    if d.calls.Is? {
      FragmentsAssemble(TakeText(o, ValueOf(d.content)), d.calls.value);
    }
  }

  lemma ChoiceAssembles(o: Output, c: Choice)
    requires Assembling(o) && TakeChoice(o, c).error.None?
    ensures Assembling(TakeChoice(o, c).out)
  {
    if c.delta.Some? {
      DeltaAssembles(o, c.delta.value);
    }
  }

  lemma FrameAssembles(o: Output, frame: Frame)
    requires Assembling(o) && TakeFrame(o, frame).error.None?
    ensures Assembling(TakeFrame(o, frame).out)
  {
    if frame.choices.value != [] {
      ChoiceAssembles(if frame.usage.Some? then o.(usage := frame.usage) else o, frame.choices.value[0]);
    }
  }

  lemma DispatchAssembles(parse: Text -> Option<Frame>, o: Output, data: Text)
    requires Assembling(o) && Dispatch(parse, o, data).error.None?
    ensures Assembling(Dispatch(parse, o, data).out)
  {
    if data != [] && !IsDone(data) {
      FrameAssembles(o, parse(data).value);
    }
  }

  lemma {:induction false} FragmentsKeepDone(o: Output, fs: seq<Fragment>)
    ensures TakeFragments(o, fs).out.done == o.done
  {
    if fs != [] {
      FragmentsKeepDone(o, fs[..|fs| - 1]);
    }
  }

  /** Only the marker ends a stream, and it carries no text. */
  lemma DoneCarriesNothing(parse: Text -> Option<Frame>, o: Output, data: Text)
    requires !o.done && Dispatch(parse, o, data).out.done
    ensures Dispatch(parse, o, data).out == o.(done := true)
  {
    if data != [] && !IsDone(data) && parse(data).Some? {
      FrameKeepsDone(o, parse(data).value);
    }
  }

  lemma FrameKeepsDone(o: Output, frame: Frame)
    ensures TakeFrame(o, frame).out.done == o.done
  {
    if frame.choices.Some? && |frame.choices.value| == 1 {
      ChoiceKeepsDone(if frame.usage.Some? then o.(usage := frame.usage) else o, frame.choices.value[0]);
    }
  }

  lemma ChoiceKeepsDone(o: Output, c: Choice)
    ensures TakeChoice(o, c).out.done == o.done
  {
    if c.delta.Some? && c.delta.value.calls.Is? {
      FragmentsKeepDone(TakeText(o, ValueOf(c.delta.value.content)), c.delta.value.calls.value);
    }
  }

  // ---- The finished response ----

  datatype Response = Response(content: Text, calls: seq<Call>, finish: Option<Text>, usage: Option<Text>)

  predicate Complete(call: Call) {
    call.id != [] && call.name != [] && call.arguments != []
  }

  /** The calls are numbered from zero without a gap, and each is complete. */
  predicate CallsComplete(calls: map<nat, Call>) {
    (forall i :: i in calls ==> i < |calls| && Complete(calls[i])) && (forall i :: 0 <= i < |calls| ==> i in calls)
  }

  function ResponseOf(o: Output): Response
    requires CallsComplete(o.calls)
  {
    Response(o.content, seq(|o.calls|, i requires 0 <= i < |o.calls| => o.calls[i]), o.finish, o.usage)
  }
}
