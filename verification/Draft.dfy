/** The bounded preview of a text that arrives in pieces. */
module Draft {
  import opened Bytes
  import opened Sequences
  import opened Characters
  import opened Utf8

  const MAX_DRAFT: nat := 65_536

  /** The first boundary from which at most the limit remains. */
  predicate StartsTail(s: seq<Byte>, start: nat) {
    && start <= |s| && Boundary(s, start) && |s| - start <= MAX_DRAFT
    && forall i :: 0 <= i < start && |s| - i <= MAX_DRAFT ==> !Boundary(s, i)
  }

  function TailStart(s: seq<Byte>, from: nat): (start: nat)
    requires from <= |s|
    ensures from <= start <= |s|
    decreases |s| - from
  {
    if |s| - from <= MAX_DRAFT && Boundary(s, from) then from
    else if from == |s| then from
    else TailStart(s, from + 1)
  }

  /** The longest end of a text that is whole characters and within the limit. */
  function Tail(s: seq<Byte>): seq<Byte> {
    s[TailStart(s, 0)..]
  }

  lemma {:induction false} TailStartIsFirst(s: seq<Byte>, from: nat)
    requires from <= |s| && forall i :: 0 <= i < from && |s| - i <= MAX_DRAFT ==> !Boundary(s, i)
    ensures StartsTail(s, TailStart(s, from))
    decreases |s| - from
  {
    if !(|s| - from <= MAX_DRAFT && Boundary(s, from)) && from < |s| {
      TailStartIsFirst(s, from + 1);
    }
  }

  lemma TailIsUnique(s: seq<Byte>, start: nat)
    requires StartsTail(s, start)
    ensures Tail(s) == s[start..]
  {
    TailStartIsFirst(s, 0);
    var other := TailStart(s, 0);
    assert Boundary(s, start) && Boundary(s, other);
  }

  /** Cutting early costs nothing: the tail of a tail with more behind it is the tail of
      everything. */
  lemma TailOfTail(a: seq<Byte>, b: seq<Byte>)
    requires Valid(a) && Valid(b)
    ensures Tail(Tail(a) + b) == Tail(a + b)
  {
    TailStartIsFirst(a, 0);
    var first := TailStart(a, 0);
    var rest := a[first..] + b;
    TailStartIsFirst(rest, 0);
    var second := TailStart(rest, 0);
    StartsMove(a, b, first, second);
    TailIsUnique(a + b, first + second);
    SliceMoves(a, b, first, second);
  }

  lemma SliceMoves(a: seq<Byte>, b: seq<Byte>, first: nat, second: nat)
    requires first <= |a| && second <= |a| - first + |b|
    ensures (a[first..] + b)[second..] == (a + b)[first + second..]
  {
  }

  lemma StartsMove(a: seq<Byte>, b: seq<Byte>, first: nat, second: nat)
    requires Valid(a) && Valid(b) && StartsTail(a, first) && StartsTail(a[first..] + b, second)
    ensures StartsTail(a + b, first + second)
  {
    var s, rest := a + b, a[first..] + b;
    if b != [] {
      ValidStart(b);
    }
    assert forall j :: 0 <= j < |rest| ==> rest[j] == s[first + j];
    assert forall i :: 0 <= i < |a| ==> a[i] == s[i];
    assert Boundary(s, first + second);
    forall i | 0 <= i < first + second && |s| - i <= MAX_DRAFT ensures !Boundary(s, i) {
      if i >= first {
        assert !Boundary(rest, i - first);
      } else {
        assert !Boundary(a, i);
      }
    }
  }

  /** Appending piece by piece, each time keeping only the tail. */
  function Accumulated(deltas: seq<seq<Byte>>): seq<Byte> {
    if deltas == [] then [] else Tail(Accumulated(deltas[..|deltas| - 1]) + deltas[|deltas| - 1])
  }

  lemma TailOfNothing()
    ensures Tail([]) == []
  {
    TailIsUnique([], 0);
  }

  /** However the text was cut into pieces, what is kept is the longest end of all of it
      that is whole characters and within the limit. */
  lemma {:induction false} PreviewIsTail(deltas: seq<seq<Byte>>)
    requires forall i :: 0 <= i < |deltas| ==> Valid(deltas[i])
    ensures Accumulated(deltas) == Tail(Flatten(deltas)) && Valid(Flatten(deltas))
    ensures exists start: nat :: StartsTail(Flatten(deltas), start) && Accumulated(deltas) == Flatten(deltas)[start..]
  {
    if deltas == [] {
      TailOfNothing();
    } else {
      var init, last := deltas[..|deltas| - 1], deltas[|deltas| - 1];
      PreviewIsTail(init);
      FlattenLast(deltas);
      TailOfTail(Flatten(init), last);
      ValidConcat(Flatten(init), last);
    }
    TailStartIsFirst(Flatten(deltas), 0);
  }

  /** Drops bytes from the front until the rest is within the limit and starts a character. */
  method Truncate(text: seq<Byte>) returns (kept: seq<Byte>)
    ensures kept == Tail(text)
  {
    kept := text;
    if |text| > MAX_DRAFT {
      var start := |text| - MAX_DRAFT;
      while !Boundary(text, start)
        invariant |text| - MAX_DRAFT <= start <= |text|
        invariant forall i :: |text| - MAX_DRAFT <= i < start ==> !Boundary(text, i)
        decreases |text| - start
      {
        start := start + 1;
      }
      kept := text[start..];
      TailIsUnique(text, start);
    } else {
      TailIsUnique(text, 0);
      assert text[0..] == text;
    }
  }

  method AppendBounded(previous: seq<Byte>, text: seq<Byte>) returns (kept: seq<Byte>)
    ensures kept == Tail(previous + text)
  {
    kept := Truncate(previous + text);
  }
}

/** The buffer between a model request and the screen. */
module ProgressBuffer {
  import opened Bytes
  import opened Wrappers
  import opened Sequences
  import opened Characters
  import opened Utf8
  import opened Draft

  datatype Request = Request(thread: string, turn: string, iteration: nat)
  datatype Preview = Begun(request: Request) | Showing(request: Request, text: seq<Byte>)
  datatype Progress = Started | TextDelta(text: seq<Byte>) | Finished(outcome: string)

  const KEPT: nat := 16

  function LastOf<T>(items: seq<T>, n: nat): seq<T> {
    if |items| > n then items[|items| - n..] else items
  }

  /** The pieces shown since the preview of this request began. */
  predicate ShowsTail(draft: Option<Preview>, deltas: seq<seq<Byte>>) {
    && (forall i :: 0 <= i < |deltas| ==> Valid(deltas[i]))
    && (draft.Some? && draft.value.Showing? ==> draft.value.text == Accumulated(deltas))
  }

  /** A further piece of the same request is added to the pieces; anything else starts over. */
  function Continued(
    draft: Option<Preview>, deltas: seq<seq<Byte>>, request: Request, text: seq<Byte>): seq<seq<Byte>>
  {
    if draft.Some? && draft.value.Showing? && draft.value.request == request then deltas + [text] else [text]
  }

  /** What becomes of the metrics file, if there is one, and of the error that is reported,
      when a line is written to it. */
  predicate LineWritten(
    before: Option<seq<Byte>>, failedBefore: bool, line: seq<Byte>, after: Option<seq<Byte>>, failed: bool)
  {
    match before
    case None => after == None && failed == failedBefore
    case Some(bytes) =>
      || (after == Some(bytes + line) && failed == failedBefore)
      || (failed && exists k :: 0 <= k <= |line| && after == Some(bytes + line[..k]))
  }

  /** `metrics` is the metrics file and `failed` whether writing to it failed since the last
      hand-out; `render` gives its lines. */
  class Buffer {
    const render: (Request, string) -> seq<Byte>
    var draft: Option<Preview>
    var completed: seq<(Request, string)>
    var metrics: Option<seq<Byte>>
    var failed: bool
    ghost var deltas: seq<seq<Byte>>

    ghost predicate Sound()
      reads this
    {
      ShowsTail(draft, deltas) && |completed| <= KEPT
    }

    constructor (metrics: Option<seq<Byte>>, render: (Request, string) -> seq<Byte>)
      ensures Sound() && draft == None && completed == [] && !failed
      ensures this.metrics == metrics && this.render == render
    {
      this.metrics, this.render, failed := metrics, render, false;
      draft, completed, deltas := None, [], [];
    }

    /** Appends a line to the metrics file. */
    method WriteMetrics(line: seq<Byte>)
      modifies this`metrics, this`failed
      ensures LineWritten(old(metrics), old(failed), line, metrics, failed)
    {
      if metrics.Some? {
        var fails: bool, reached: nat := *, *;
        if fails {
          metrics := Some(metrics.value + line[..if reached <= |line| then reached else |line|]);
          failed := true;
        } else {
          metrics := Some(metrics.value + line);
        }
      }
    }

    method OnProgress(request: Request, progress: Progress)
      requires Sound() && (progress.TextDelta? ==> Valid(progress.text))
      modifies this
      ensures Sound()
      ensures progress.Started? ==> draft == Some(Begun(request)) && completed == old(completed)
      ensures progress.TextDelta? ==> deltas == Continued(old(draft), old(deltas), request, progress.text)
      ensures progress.TextDelta? ==>
          draft == Some(Showing(request, Tail(Flatten(deltas)))) && completed == old(completed)
      ensures !progress.Finished? ==> metrics == old(metrics) && failed == old(failed)
      ensures progress.Finished? ==> draft == old(draft) && deltas == old(deltas)
      ensures progress.Finished? ==>
          LineWritten(old(metrics), old(failed), render(request, progress.outcome), metrics, failed)
      ensures progress.Finished? ==> completed == LastOf(old(completed) + [(request, progress.outcome)], KEPT)
    {
      match progress {
        case Started => draft := Some(Begun(request));
        case TextDelta(text) =>
          ghost var pieces := Continued(draft, deltas, request, text);
          var kept;
          if draft.Some? && draft.value.Showing? && draft.value.request == request {
            kept := AppendBounded(draft.value.text, text);
            assert pieces[..|pieces| - 1] == deltas;
          } else {
            kept := Truncate(text);
            assert pieces[..|pieces| - 1] == [] && [] + text == text;
          }
          draft, deltas := Some(Showing(request, kept)), pieces;
          PreviewIsTail(deltas);
        case Finished(outcome) =>
          WriteMetrics(render(request, outcome));
          completed := completed + [(request, outcome)];
          while |completed| > KEPT
            invariant |completed| <= KEPT + 1 && draft == old(draft) && deltas == old(deltas)
            invariant LineWritten(old(metrics), old(failed), render(request, outcome), metrics, failed)
            invariant var all := old(completed) + [(request, outcome)];
                      completed == all || (|all| == KEPT + 1 && completed == all[1..])
            decreases |completed|
          {
            completed := completed[1..];
          }
      }
    }

    /** Hands out everything and starts over. */
    method Take() returns (preview: Option<Preview>, done: seq<(Request, string)>, error: bool)
      requires Sound()
      modifies this
      ensures Sound() && preview == old(draft) && done == old(completed) && error == old(failed)
      ensures draft == None && completed == [] && !failed && metrics == old(metrics)
    {
      preview, done, error := draft, completed, failed;
      draft, completed, deltas, failed := None, [], [], false;
    }
  }
}
