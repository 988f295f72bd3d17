/** The deterministic transcript window: messages are grouped so that an assistant
    message keeps the receipts of its calls, and whole groups are dropped from the front. */
module Transcripts {
  import opened Wrappers
  import opened Ids
  import opened Protocol
  import opened Sequences
  import opened LogGrammar

  /** How many receipts a message expects to be followed by. */
  function Expected(m: Message): nat {
    if m.Assistant? then |m.calls| else 0
  }

  function LeadingReceipts(ms: seq<Message>, limit: nat): (n: nat)
    ensures n <= |ms| && n <= limit
    ensures forall i :: 0 <= i < n ==> ms[i].Tool?
    ensures n == limit || n == |ms| || !ms[n].Tool?
  {
    if ms == [] || limit == 0 || !ms[0].Tool? then 0 else 1 + LeadingReceipts(ms[1..], limit - 1)
  }

  function GroupLength(ms: seq<Message>): (n: nat)
    requires ms != []
    ensures 0 < n <= |ms|
  {
    1 + LeadingReceipts(ms[1..], Expected(ms[0]))
  }

  /** The groups of any list of messages: each message takes the receipts directly
      behind it, up to the number it expects. */
  function Groups(ms: seq<Message>): seq<seq<Message>> {
    if ms == [] then [] else
      var n := GroupLength(ms);
      [ms[..n]] + Groups(ms[n..])
  }

  function Omitted(groups: nat, maximum: nat): nat {
    if groups > maximum then groups - maximum else 0
  }

  lemma {:induction false} FlattenGroups(ms: seq<Message>)
    ensures Flatten(Groups(ms)) == ms
  {
    if ms != [] {
      var n := GroupLength(ms);
      FlattenGroups(ms[n..]);
      assert Groups(ms)[1..] == Groups(ms[n..]);
      assert ms == ms[..n] + ms[n..];
    }
  }

  lemma GroupsOf(ms: seq<Message>, n: nat)
    requires ms != [] && n == GroupLength(ms)
    ensures Groups(ms) == [ms[..n]] + Groups(ms[n..])
  {
  }

  lemma GroupsStep(ms: seq<Message>, group: seq<Message>, rest: seq<Message>)
    requires ms == group + rest && ms != [] && GroupLength(ms) == |group|
    ensures Groups(ms) == [group] + Groups(rest)
  {
    GroupsOf(ms, |group|);
    assert ms[..|group|] == group && ms[|group|..] == rest;
  }

  lemma LeadingStep(ms: seq<Message>, next: nat, limit: nat)
    requires next < |ms| && ms[next].Tool? && limit > 0
    ensures LeadingReceipts(ms[next..], limit) == 1 + LeadingReceipts(ms[next + 1..], limit - 1)
  {
    assert ms[next..][1..] == ms[next + 1..];
  }

  /** The inner loop: a message, and the receipts behind it that it expects. */
  method TakeGroup(messages: seq<Message>, start: nat) returns (group: seq<Message>, next: nat)
    requires start < |messages|
    ensures next == start + GroupLength(messages[start..])
    ensures group == messages[start..next]
  {
    group := [messages[start]];
    next := start + 1;
    var expected := Expected(group[0]);
    assert messages[start..][1..] == messages[next..];
    while |group| <= expected && next < |messages| && messages[next].Tool?
      invariant start < next <= |messages| && |group| == next - start <= expected + 1
      invariant forall i :: start <= i < next ==> group[i - start] == messages[i]
      invariant |group| + LeadingReceipts(messages[next..], expected + 1 - |group|) == GroupLength(messages[start..])
    {
      LeadingStep(messages, next, expected + 1 - |group|);
      group := group + [messages[next]];
      next := next + 1;
    }
  }

  lemma NextGroup(messages: seq<Message>, start: nat, next: nat)
    requires start < |messages| && next == start + GroupLength(messages[start..])
    ensures next <= |messages| && Groups(messages[start..]) == [messages[start..next]] + Groups(messages[next..])
  {
    assert messages[start..] == messages[start..next] + messages[next..];
    GroupsStep(messages[start..], messages[start..next], messages[next..]);
  }

  /** Keeps the last `maximum` groups. */
  method CompactTranscript(messages: seq<Message>, maximum: nat) returns (retained: seq<Message>, omitted: nat)
    ensures omitted == Omitted(|Groups(messages)|, maximum)
    ensures retained == Flatten(Groups(messages)[omitted..])
    ensures messages == Flatten(Groups(messages)[..omitted]) + retained
  {
    var groups: seq<seq<Message>> := [];
    var next := 0;
    assert messages[0..] == messages;
    while next < |messages|
      invariant 0 <= next <= |messages|
      invariant groups + Groups(messages[next..]) == Groups(messages)
    {
      var group, after := TakeGroup(messages, next);
      NextGroup(messages, next, after);
      Associative(groups, [group], Groups(messages[after..]));
      groups := groups + [group];
      next := after;
    }
    assert groups + [] == groups;
    omitted := Omitted(|groups|, maximum);
    retained := Flatten(groups[omitted..]);
    FlattenGroups(messages);
    FlattenSplit(groups, omitted);
  }

  // ---- What a window contains ----

  function ReceiptIds(ms: seq<Message>): set<CallId> {
    set i | 0 <= i < |ms| && ms[i].Tool? :: ms[i].receipt.callId
  }

  /** A user message alone, or an assistant message with exactly one receipt for each of
      its calls, in any order. */
  predicate CompleteGroup(g: seq<Message>) {
    && g != [] && !g[0].Tool?
    && |g| == 1 + Expected(g[0])
    && (forall i :: 1 <= i < |g| ==> g[i].Tool?)
    && (forall i, j :: 1 <= i < j < |g| ==> g[i].receipt.callId != g[j].receipt.callId)
    && (g[0].Assistant? ==> ReceiptIds(g[1..]) == CallIds(g[0].calls))
  }

  predicate AllComplete(gs: seq<seq<Message>>) {
    forall i :: 0 <= i < |gs| ==> CompleteGroup(gs[i])
  }

  lemma FirstGroup(g: seq<Message>, rest: seq<Message>)
    requires CompleteGroup(g)
    ensures Groups(g + rest) == [g] + Groups(rest)
  {
    var ms := g + rest;
    assert ms[1..] == g[1..] + rest;
    LeadingComplete(g[1..], rest);
    GroupsOf(ms, |g|);
    assert ms[..|g|] == g && ms[|g|..] == rest;
  }

  /** Complete exchanges are found again by grouping. */
  lemma {:induction false} CompleteGroupsAreGroups(gs: seq<seq<Message>>)
    requires AllComplete(gs)
    ensures Groups(Flatten(gs)) == gs
  {
    if gs != [] {
      CompleteGroupsAreGroups(gs[1..]);
      FirstGroup(gs[0], Flatten(gs[1..]));
    }
  }

  lemma {:induction false} LeadingComplete(receipts: seq<Message>, rest: seq<Message>)
    requires forall i :: 0 <= i < |receipts| ==> receipts[i].Tool?
    ensures LeadingReceipts(receipts + rest, |receipts|) == |receipts|
  {
    if receipts != [] {
      LeadingComplete(receipts[1..], rest);
      assert (receipts + rest)[1..] == receipts[1..] + rest;
    }
  }

  /** The last exchange of a transcript while calls in it still wait for receipts. */
  predicate OpenExchange(tail: seq<Message>, waiting: set<CallId>) {
    && tail != [] && tail[0].Assistant?
    && (forall i, j :: 0 <= i < j < |tail[0].calls| ==> tail[0].calls[i].id != tail[0].calls[j].id)
    && (forall i :: 1 <= i < |tail| ==> tail[i].Tool?)
    && (forall i, j :: 1 <= i < j < |tail| ==> tail[i].receipt.callId != tail[j].receipt.callId)
    && waiting <= CallIds(tail[0].calls)
    && ReceiptIds(tail[1..]) == CallIds(tail[0].calls) - waiting
  }

  ghost predicate Shaped(ms: seq<Message>, waiting: set<CallId>) {
    exists gs: seq<seq<Message>>, tail: seq<Message> :: ShapedAs(ms, waiting, gs, tail)
  }

  predicate ShapedAs(ms: seq<Message>, waiting: set<CallId>, gs: seq<seq<Message>>, tail: seq<Message>) {
    && ms == Flatten(gs) + tail && AllComplete(gs)
    && (if waiting == {} then tail == [] else OpenExchange(tail, waiting))
  }

  lemma {:induction false} DistinctIds(calls: seq<ToolCall>)
    requires forall i, j :: 0 <= i < j < |calls| ==> calls[i].id != calls[j].id
    ensures |CallIds(calls)| == |calls|
  {
    if calls != [] {
      var init, last := calls[..|calls| - 1], calls[|calls| - 1];
      DistinctIds(init);
      assert CallIds(calls) == CallIds(init) + {last.id};
    }
  }

  lemma {:induction false} DistinctReceipts(ms: seq<Message>)
    requires forall i :: 0 <= i < |ms| ==> ms[i].Tool?
    requires forall i, j :: 0 <= i < j < |ms| ==> ms[i].receipt.callId != ms[j].receipt.callId
    ensures |ReceiptIds(ms)| == |ms|
  {
    if ms != [] {
      var init, last := ms[..|ms| - 1], ms[|ms| - 1];
      DistinctReceipts(init);
      assert ReceiptIds(ms) == ReceiptIds(init) + {last.receipt.callId};
    }
  }

  lemma ClosedExchangeIsComplete(tail: seq<Message>)
    requires OpenExchange(tail, {})
    ensures CompleteGroup(tail)
  {
    DistinctIds(tail[0].calls);
    DistinctReceipts(tail[1..]);
  }

  lemma ReceiptIdsAppend(ms: seq<Message>, receipt: ToolReceipt)
    ensures ReceiptIds(ms + [Tool(receipt)]) == ReceiptIds(ms) + {receipt.callId}
  {
    var ms' := ms + [Tool(receipt)];
    forall id | id in ReceiptIds(ms) + {receipt.callId} ensures id in ReceiptIds(ms') {
      if id == receipt.callId {
        assert ms'[|ms|].receipt.callId == id;
      } else {
        var i :| 0 <= i < |ms| && ms[i].Tool? && ms[i].receipt.callId == id;
        assert ms'[i].receipt.callId == id;
      }
    }
  }

  lemma ExchangeGrows(tail: seq<Message>, waiting: set<CallId>, receipt: ToolReceipt)
    requires OpenExchange(tail, waiting) && receipt.callId in waiting
    ensures OpenExchange(tail + [Tool(receipt)], waiting - {receipt.callId})
  {
    var tail' := tail + [Tool(receipt)];
    assert tail'[1..] == tail[1..] + [Tool(receipt)];
    ReceiptIdsAppend(tail[1..], receipt);
    forall i | 1 <= i < |tail| ensures tail[i].receipt.callId != receipt.callId {
      assert tail[1..][i - 1].receipt.callId in ReceiptIds(tail[1..]);
    }
  }

  lemma ShapedGroup(gs: seq<seq<Message>>, g: seq<Message>)
    requires AllComplete(gs) && CompleteGroup(g)
    ensures Shaped(Flatten(gs) + g, {})
  {
    FlattenAppend(gs, g);
    assert ShapedAs(Flatten(gs) + g, {}, gs + [g], []);
  }

  lemma ShapeStep(log: seq<Record>, s: Scan, r: Record)
    requires Shaped(Transcript(log), s.pending.Keys) && Admits(s, r)
    ensures Shaped(Transcript(log + [r]), Advance(s, r).pending.Keys)
  {
    TranscriptAppend(log, r);
    if MessageOf(r.event) == [] {
      assert Transcript(log) + [] == Transcript(log);
      QuietKeepsPending(s, r);
    } else {
      MessageShape(Transcript(log), s, r);
    }
  }

  lemma QuietKeepsPending(s: Scan, r: Record)
    requires Admits(s, r) && MessageOf(r.event) == []
    ensures Advance(s, r).pending.Keys == s.pending.Keys
  {
  }

  lemma MessageShape(ms: seq<Message>, s: Scan, r: Record)
    requires Shaped(ms, s.pending.Keys) && Admits(s, r) && MessageOf(r.event) != []
    ensures Shaped(ms + MessageOf(r.event), Advance(s, r).pending.Keys)
  {
    var gs: seq<seq<Message>>, tail: seq<Message> :| ShapedAs(ms, s.pending.Keys, gs, tail);
    match r.event {
      case UserMessage(content) =>
        assert ms == Flatten(gs);
        assert CompleteGroup([User(content)]);
        ShapedGroup(gs, [User(content)]);
      case AssistantMessage(m) =>
        assert ms == Flatten(gs);
        AssistantShape(gs, m);
      case ToolReceiptRecorded(receipt) =>
        ReceiptShape(gs, tail, s.pending.Keys, receipt);
        Associative(Flatten(gs), tail, [Tool(receipt)]);
        assert Advance(s, r).pending.Keys == s.pending.Keys - {receipt.callId};
    }
  }

  lemma AssistantShape(gs: seq<seq<Message>>, m: ModelResponse)
    requires AllComplete(gs) && ValidCalls(m.calls, {})
    ensures Shaped(Flatten(gs) + [Assistant(m.content, m.calls)], CallIds(m.calls))
  {
    var asked := [Assistant(m.content, m.calls)];
    assert asked[1..] == [] && OpenExchange(asked, CallIds(m.calls));
    if CallIds(m.calls) == {} {
      ClosedExchangeIsComplete(asked);
      ShapedGroup(gs, asked);
    } else {
      assert ShapedAs(Flatten(gs) + asked, CallIds(m.calls), gs, asked);
    }
  }

  lemma ReceiptShape(gs: seq<seq<Message>>, tail: seq<Message>, waiting: set<CallId>, receipt: ToolReceipt)
    requires AllComplete(gs) && OpenExchange(tail, waiting) && receipt.callId in waiting
    ensures Shaped(Flatten(gs) + (tail + [Tool(receipt)]), waiting - {receipt.callId})
  {
    var tail' := tail + [Tool(receipt)];
    ExchangeGrows(tail, waiting, receipt);
    if waiting - {receipt.callId} == {} {
      ClosedExchangeIsComplete(tail');
      ShapedGroup(gs, tail');
    } else {
      assert ShapedAs(Flatten(gs) + tail', waiting - {receipt.callId}, gs, tail');
    }
  }

  lemma {:induction false} LegalTranscriptsAreShaped(log: seq<Record>)
    requires Legal(log)
    ensures Shaped(Transcript(log), Read(log).value.pending.Keys)
  {
    if log == [] {
      assert ShapedAs(Transcript(log), Read(log).value.pending.Keys, [], []);
    } else {
      var before, r := log[..|log| - 1], log[|log| - 1];
      LegalTranscriptsAreShaped(before);
      assert before + [r] == log;
      ShapeStep(before, Read(before).value, r);
    }
  }

  /** The transcript of a legal log in which nothing waits for a receipt falls apart into
      complete groups; keeping any number of the last groups keeps every call with all of
      its receipts, keeps no receipt without its call, and loses exactly the groups counted
      as omitted. */
  lemma WindowsAreWellFormed(log: seq<Record>, maximum: nat)
    requires Legal(log) && Read(log).value.pending == map[]
    ensures var groups := Groups(Transcript(log));
            var omitted := Omitted(|groups|, maximum);
            && AllComplete(groups)
            && AllComplete(Groups(Flatten(groups[omitted..])))
            && Groups(Flatten(groups[omitted..])) == groups[omitted..]
            && |groups[omitted..]| <= maximum
            && Transcript(log) == Flatten(groups[..omitted]) + Flatten(groups[omitted..])
  {
    LegalTranscriptsAreShaped(log);
    var ms := Transcript(log);
    var gs: seq<seq<Message>>, tail: seq<Message> :| ShapedAs(ms, {}, gs, tail);
    assert ms == Flatten(gs);
    CompleteGroupsAreGroups(gs);
    var omitted := Omitted(|gs|, maximum);
    CompleteGroupsAreGroups(gs[omitted..]);
    FlattenSplit(gs, omitted);
  }
}
