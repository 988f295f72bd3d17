/** The order of events a thread's log may have, as an acceptor that reads the log
    one record at a time, and what an accepted log guarantees about counts of
    accepted calls, receipts and turn ends. */
module LogGrammar {
  import opened Wrappers
  import opened Ids
  import opened Protocol

  /** How far a call without a receipt has got. */
  datatype Stage =
    | Accepted
    | Ready(prepared: PreparedToolCall, approved: bool)
    | Started(prepared: PreparedToolCall, approved: bool)

  datatype Slot = Slot(call: ToolCall, stage: Stage)

  /** Where the latest turn stands. A response that stopped short, or whose stop
      reason contradicts its calls, is Rejected: none of its calls may be prepared. */
  datatype Phase = NoTurn | NeedsUser | Looping | Compiled | Requested | Answered(content: string) | Rejected

  function AfterResponse(m: ModelResponse): Phase {
    if m.stop == EndTurn && m.calls == [] then Answered(m.content)
    else if m.stop == ToolUse && m.calls != [] then Looping
    else Rejected
  }

  datatype Scan = Scan(
    created: bool,                 // ThreadStarted was read
    begun: set<TurnId>,            // turns that ever started
    current: TurnId,               // the latest of them
    open: bool,                    // it has no terminal event yet
    phase: Phase,
    seen: set<CallId>,             // call ids it accepted
    pending: map<CallId, Slot>     // those still without a receipt
  )

  const FRESH := Scan(false, {}, "", false, NoTurn, {}, map[])

  function Slots(calls: seq<ToolCall>): (m: map<CallId, Slot>)
    ensures m.Keys == CallIds(calls)
    ensures forall id :: id in m ==> m[id].stage == Accepted && m[id].call in calls && m[id].call.id == id
  {
    if calls == [] then map[] else
      var last := calls[|calls| - 1];
      assert calls == calls[..|calls| - 1] + [last];
      Slots(calls[..|calls| - 1])[last.id := Slot(last, Accepted)]
  }

  /** A receipt tells no more than is known at the call's stage: an unprepared call
      has no action, a started call is never denied, output means success. */
  predicate Fits(slot: Slot, r: ToolReceipt) {
    && r.callId == slot.call.id
    && r.toolName == slot.call.name
    && (r.output.Some? <==> r.status == Succeeded)
    && match slot.stage
       case Accepted => (r.status == Denied || r.status == Failed) && r.action == None
       case Ready(p, _) => (r.status == Denied || r.status == Failed) && r.action == Some(p.action)
       case Started(p, _) => r.status != Denied && r.action == Some(p.action)
  }

  predicate InTurn(s: Scan, r: Record) {
    s.open && r.turn == Some(s.current)
  }

  /** The acceptor's rules, one per kind of event. */
  predicate Admits(s: Scan, r: Record) {
    match r.event
    case ThreadStarted => r.turn == None && !s.created
    case TurnStarted => r.turn.Some? && s.created && !s.open && s.pending == map[] && r.turn.value !in s.begun
    case UserMessage(_) => InTurn(s, r) && s.phase == NeedsUser && s.pending == map[]
    case ContextCompiled(_, _, _) => InTurn(s, r) && s.phase == Looping && s.pending == map[]
    case ModelRequestStarted(_) => InTurn(s, r) && s.phase == Compiled && s.pending == map[]
    case AssistantMessage(m) =>
      InTurn(s, r) && s.phase == Requested && s.pending == map[] && ValidCalls(m.calls, s.seen)
    case ToolPrepared(p) =>
      && InTurn(s, r) && s.phase == Looping && p.callId in s.pending
      && s.pending[p.callId].stage == Accepted && p.action.toolName == s.pending[p.callId].call.name
    case ApprovalRequested(id, action) =>
      && InTurn(s, r) && id in s.pending && s.pending[id].stage.Ready? && s.pending[id].stage.prepared.action == action
    case ApprovalResolved(id, _) => InTurn(s, r) && id in s.pending && s.pending[id].stage.Ready?
    case ToolExecutionStarted(p) =>
      InTurn(s, r) && p.callId in s.pending && s.pending[p.callId].stage.Ready?
          && s.pending[p.callId].stage.prepared == p
    case ToolReceiptRecorded(receipt) =>
      r.turn == Some(s.current) && receipt.callId in s.pending && Fits(s.pending[receipt.callId], receipt)
    case HookFailed(_, _) => InTurn(s, r) && s.phase == Looping
    case TurnCompleted(content) => InTurn(s, r) && s.phase == Answered(content)
    case TurnCancelled => InTurn(s, r) && (s.phase == Looping || s.phase == Requested || s.phase.Answered?)
        && s.pending == map[]
    case TurnFailed(_) => InTurn(s, r)
  }

  function Advance(s: Scan, r: Record): Scan
    requires Admits(s, r)
  {
    match r.event
    case ThreadStarted => s.(created := true)
    case TurnStarted =>
      Scan(true, s.begun + {r.turn.value}, r.turn.value, true, NeedsUser, {}, map[])
    case UserMessage(_) => s.(phase := Looping)
    case ContextCompiled(_, _, _) => s.(phase := Compiled)
    case ModelRequestStarted(_) => s.(phase := Requested)
    case AssistantMessage(m) =>
      s.(phase := AfterResponse(m), seen := s.seen + CallIds(m.calls), pending := Slots(m.calls))
    case ToolPrepared(p) =>
      s.(pending := s.pending[p.callId := s.pending[p.callId].(stage := Ready(p, false))])
    case ApprovalResolved(id, decision) =>
      var p := s.pending[id].stage.prepared;
      s.(pending := s.pending[id := s.pending[id].(stage := Ready(p, decision == Approved(p.action)))])
    case ToolExecutionStarted(p) =>
      s.(pending := s.pending[p.callId := s.pending[p.callId].(
        stage := Started(p, s.pending[p.callId].stage.approved))])
    case ToolReceiptRecorded(receipt) => s.(pending := s.pending - {receipt.callId})
    case TurnCompleted(_) => s.(open := false)
    case TurnCancelled => s.(open := false)
    case TurnFailed(_) => s.(open := false)
    case _ => s
  }

  /** Reads a whole log; None when some record is out of order. */
  function Read(log: seq<Record>): Option<Scan> {
    if log == [] then Some(FRESH) else
      var before := Read(log[..|log| - 1]);
      if before.Some? && Admits(before.value, log[|log| - 1])
      then Some(Advance(before.value, log[|log| - 1])) else None
  }

  predicate Legal(log: seq<Record>) {
    Read(log).Some?
  }

  lemma ReadAppend(log: seq<Record>, r: Record)
    requires Legal(log)
    ensures Legal(log + [r]) <==> Admits(Read(log).value, r)
    ensures Legal(log + [r]) ==> Read(log + [r]).value == Advance(Read(log).value, r)
  {
    assert (log + [r])[..|log + [r]| - 1] == log;
  }

  lemma {:induction false} PrefixLegal(log: seq<Record>, n: nat)
    requires Legal(log) && n <= |log|
    ensures Legal(log[..n])
    decreases |log|
  {
    if n < |log| {
      PrefixLegal(log[..|log| - 1], n);
      assert log[..|log| - 1][..n] == log[..n];
    } else {
      assert log[..n] == log;
    }
  }

  // ---- What can be counted in a log without the acceptor ----

  datatype Mark =
      Accepts(key: Key) | Receives(key: Key) | Starts(key: Key) | Begins(turn: TurnId) | Ends(turn: TurnId) {
    predicate On(r: Record) {
      match this
      case Accepts(k) => r.turn == Some(k.turn) && r.event.AssistantMessage?
          && k.call in CallIds(r.event.response.calls)
      case Receives(k) => r.turn == Some(k.turn) && r.event.ToolReceiptRecorded? && r.event.receipt.callId == k.call
      case Starts(k) => r.turn == Some(k.turn) && r.event.ToolExecutionStarted? && r.event.prepared.callId == k.call
      case Begins(t) => r.turn == Some(t) && r.event.TurnStarted?
      case Ends(t) => r.turn == Some(t) && r.event.Terminal()
    }
  }

  function Count(log: seq<Record>, mark: Mark): nat {
    if log == [] then 0 else Count(log[..|log| - 1], mark) + if mark.On(log[|log| - 1]) then 1 else 0
  }

  lemma CountAppend(log: seq<Record>, r: Record, mark: Mark)
    ensures Count(log + [r], mark) == Count(log, mark) + if mark.On(r) then 1 else 0
  {
    assert (log + [r])[..|log + [r]| - 1] == log;
  }

  predicate Awaiting(s: Scan, k: Key) {
    k.turn == s.current && k.call in s.pending
  }

  /** What is counted for one call, given where the acceptor stands: it was accepted
      at most once, has a receipt unless it is pending, and its execution was started
      at most once, and for a pending call exactly if it is at stage Started. */
  ghost predicate KeyTallied(log: seq<Record>, s: Scan, k: Key) {
    && Count(log, Accepts(k)) <= 1
    && (k.turn !in s.begun ==> Count(log, Accepts(k)) == 0)
    && (k.turn == s.current ==> (Count(log, Accepts(k)) == 1 <==> k.call in s.seen))
    && Count(log, Receives(k)) == Count(log, Accepts(k)) - (if Awaiting(s, k) then 1 else 0)
    && Count(log, Starts(k)) <= Count(log, Accepts(k))
    && (Awaiting(s, k) ==> Count(log, Starts(k)) == if s.pending[k.call].stage.Started? then 1 else 0)
  }

  ghost predicate TurnTallied(log: seq<Record>, s: Scan, t: TurnId) {
    && Count(log, Begins(t)) == (if t in s.begun then 1 else 0)
    && Count(log, Ends(t)) == (if t in s.begun && !(s.open && t == s.current) then 1 else 0)
  }

  ghost predicate ScanOrdered(s: Scan) {
    && s.pending.Keys <= s.seen
    && (s.open ==> s.current in s.begun)
    && (forall id :: id in s.pending ==> s.pending[id].call.id == id)
  }

  ghost predicate Tallied(log: seq<Record>, s: Scan) {
    && ScanOrdered(s)
    && (forall k: Key :: KeyTallied(log, s, k))
    && (forall t: TurnId :: TurnTallied(log, s, t))
  }

  lemma {:induction false} LegalLogsTally(log: seq<Record>)
    requires Legal(log)
    ensures Tallied(log, Read(log).value)
  {
    if log == [] {
      assert forall k: Key :: KeyTallied(log, FRESH, k);
    } else {
      var before, r := log[..|log| - 1], log[|log| - 1];
      var s := Read(before).value;
      LegalLogsTally(before);
      assert before + [r] == log;
      ScanStaysOrdered(s, r);
      forall k: Key ensures KeyTallied(log, Advance(s, r), k) {
        assert KeyTallied(before, s, k);
        KeyStep(before, s, r, k);
      }
      forall t: TurnId ensures TurnTallied(log, Advance(s, r), t) {
        assert TurnTallied(before, s, t);
        CountAppend(before, r, Begins(t));
        CountAppend(before, r, Ends(t));
      }
    }
  }

  lemma ScanStaysOrdered(s: Scan, r: Record)
    requires ScanOrdered(s) && Admits(s, r)
    ensures ScanOrdered(Advance(s, r))
  {
  }

  lemma KeyStep(log: seq<Record>, s: Scan, r: Record, k: Key)
    requires ScanOrdered(s) && Admits(s, r) && KeyTallied(log, s, k)
    ensures KeyTallied(log + [r], Advance(s, r), k)
  {
    CountAppend(log, r, Accepts(k));
    CountAppend(log, r, Receives(k));
    CountAppend(log, r, Starts(k));
  }

  // ---- What a stage is evidence of ----

  function KeyIn(s: Scan, id: CallId): Key { Key(s.current, id) }

  /** The stage of a pending call is backed by records of the log. */
  ghost predicate Evidenced(log: seq<Record>, s: Scan) {
    forall id :: id in s.pending ==> StageEvidence(log, s.current, id, s.pending[id])
  }

  ghost predicate StageEvidence(log: seq<Record>, turn: TurnId, id: CallId, slot: Slot) {
    match slot.stage
    case Accepted => true
    case Ready(p, approved) => PreparedEvidence(log, turn, id, slot.call, p, approved)
    case Started(p, approved) =>
      && PreparedEvidence(log, turn, id, slot.call, p, approved)
      && Record(Some(turn), ToolExecutionStarted(p)) in log
  }

  ghost predicate PreparedEvidence(
    log: seq<Record>, turn: TurnId, id: CallId, call: ToolCall, p: PreparedToolCall, approved: bool)
  {
    && p.callId == id && p.action.toolName == call.name
    && Record(Some(turn), ToolPrepared(p)) in log
    && (approved ==> Record(Some(turn), ApprovalResolved(id, Approved(p.action))) in log)
  }

  lemma {:induction false} LegalLogsAreEvidenced(log: seq<Record>)
    requires Legal(log)
    ensures Evidenced(log, Read(log).value)
  {
    if log != [] {
      var before, r := log[..|log| - 1], log[|log| - 1];
      LegalLogsAreEvidenced(before);
      assert before + [r] == log;
      var s := Read(before).value;
      forall id | id in Advance(s, r).pending
        ensures StageEvidence(log, Advance(s, r).current, id, Advance(s, r).pending[id])
      {
        EvidenceStep(before, s, r, id);
      }
    }
  }

  lemma EvidenceStep(log: seq<Record>, s: Scan, r: Record, id: CallId)
    requires Admits(s, r) && id in Advance(s, r).pending
    requires id in s.pending ==> StageEvidence(log, s.current, id, s.pending[id])
    ensures StageEvidence(log + [r], Advance(s, r).current, id, Advance(s, r).pending[id])
  {
    assert r in log + [r];
    assert forall x :: x in log ==> x in log + [r];
  }

  // ---- What every accepted log promises, in terms of its records alone ----

  /** Events before which nothing may be left without a receipt. */
  predicate NeedsClosure(e: Event) {
    e.TurnStarted? || e.UserMessage? || e.ContextCompiled? || e.ModelRequestStarted? || e.AssistantMessage?
  }

  lemma PrefixStep(log: seq<Record>, i: nat)
    requires Legal(log) && i < |log|
    ensures Legal(log[..i]) && Admits(Read(log[..i]).value, log[i])
  {
    PrefixLegal(log, i);
    PrefixLegal(log, i + 1);
    assert log[..i + 1] == log[..i] + [log[i]];
    ReadAppend(log[..i], log[i]);
  }

  /** Whenever a turn starts, a user message or a model request is recorded, or the
      model answers, every call accepted so far in the thread has exactly one receipt,
      and no receipt exists for a call that was never accepted. */
  lemma ReceiptClosure(log: seq<Record>, i: nat, k: Key)
    requires Legal(log) && i < |log| && NeedsClosure(log[i].event)
    ensures Count(log[..i], Receives(k)) == Count(log[..i], Accepts(k)) <= 1
  {
    PrefixStep(log, i);
    LegalLogsTally(log[..i]);
    assert KeyTallied(log[..i], Read(log[..i]).value, k);
  }

  /** At most one receipt, and one execution start, is ever recorded for a call. */
  lemma AtMostOnce(log: seq<Record>, k: Key)
    requires Legal(log)
    ensures Count(log, Receives(k)) <= Count(log, Accepts(k)) <= 1
    ensures Count(log, Starts(k)) <= Count(log, Accepts(k))
  {
    LegalLogsTally(log);
    assert KeyTallied(log, Read(log).value, k);
  }

  /** Turns never overlap: a turn begins once, ends at most once, and two turns
      without an end are the same turn. */
  lemma TurnsAreSequential(log: seq<Record>, a: TurnId, b: TurnId)
    requires Legal(log)
    ensures Count(log, Ends(a)) <= Count(log, Begins(a)) <= 1
    ensures Count(log, Begins(a)) > Count(log, Ends(a)) && Count(log, Begins(b)) > Count(log, Ends(b)) ==> a == b
  {
    LegalLogsTally(log);
    assert TurnTallied(log, Read(log).value, a) && TurnTallied(log, Read(log).value, b);
  }

  lemma {:induction false} CountMonotone(log: seq<Record>, i: nat, mark: Mark)
    requires i <= |log|
    ensures Count(log[..i], mark) <= Count(log, mark)
    decreases |log|
  {
    if i < |log| {
      CountMonotone(log[..|log| - 1], i, mark);
      assert log[..|log| - 1][..i] == log[..i];
    } else {
      assert log[..i] == log;
    }
  }

  lemma CountAt(log: seq<Record>, j: nat, i: nat, mark: Mark)
    requires j < i <= |log| && mark.On(log[j])
    ensures Count(log[..i], mark) >= 1
  {
    CountAppend(log[..j], log[j], mark);
    assert log[..j + 1] == log[..j] + [log[j]];
    CountMonotone(log[..i], j + 1, mark);
    assert log[..i][..j + 1] == log[..j + 1];
  }

  /** A call still without a receipt was accepted by the thread's last assistant
      message, and nothing the model could read as a new exchange came after it. */
  lemma UnreceiptedCallsAreLast(log: seq<Record>, j: nat, k: Key)
    requires Legal(log) && j < |log| && Accepts(k).On(log[j])
    requires Count(log, Receives(k)) == 0
    ensures forall i :: j < i < |log| ==> !NeedsClosure(log[i].event)
  {
    forall i | j < i < |log| ensures !NeedsClosure(log[i].event) {
      if NeedsClosure(log[i].event) {
        ReceiptClosure(log, i, k);
        CountAt(log, j, i, Accepts(k));
        CountMonotone(log, i, Receives(k));
      }
    }
  }

  /** Nothing is executed that was not first prepared with the identical action by a
      call of the same turn, and no turn runs anything after it has ended. */
  lemma ExecutionIsPrepared(log: seq<Record>, i: nat)
    requires Legal(log) && i < |log| && log[i].event.ToolExecutionStarted?
    ensures Record(log[i].turn, ToolPrepared(log[i].event.prepared)) in log[..i]
    ensures log[i].turn.Some? && Count(log[..i], Ends(log[i].turn.value)) == 0
    ensures Count(log[..i], Starts(Key(log[i].turn.value, log[i].event.prepared.callId))) == 0
  {
    PrefixStep(log, i);
    LegalLogsTally(log[..i]);
    LegalLogsAreEvidenced(log[..i]);
    var s := Read(log[..i]).value;
    assert KeyTallied(log[..i], s, KeyIn(s, log[i].event.prepared.callId));
    assert TurnTallied(log[..i], s, s.current);
  }
}
