/** The provider-neutral vocabulary of a thread: calls, receipts, events. */
module Protocol {
  import opened Wrappers
  import opened Ids
  import opened Sequences

  /** An opaque JSON value; only its identity matters here. */
  datatype Value = Value(text: string)

  datatype EffectKind = ReadOnly | WorkspaceWrite | ExternalSideEffect
  datatype RetrySafety = Safe | Idempotent | Unsafe

  datatype ToolCall = ToolCall(id: CallId, name: string, arguments: Value)

  datatype CanonicalAction = CanonicalAction(
    toolName: string, arguments: Value, effect: EffectKind, retry: RetrySafety, scope: Option<string>)

  datatype PreparedToolCall = PreparedToolCall(callId: CallId, action: CanonicalAction)

  datatype ReceiptStatus = Succeeded | Failed | Denied | Unknown

  /** Why something was refused or failed: the runtime's own fixed messages, named
      after what they say, or text supplied by a tool, hook, model or approver. */
  datatype Reason =
    | StartedWithoutReceipt
    | InterruptedBeforeExecution
    | InterruptedBeforePreparation
    | InterruptedAndRecovered
    | NotRegistered
    | DeniedByProjection
    | PreparationChangedCall
    | ApprovalMismatch
    | CancelledBeforePreparation
    | IncompleteResponse(stop: StopReason)
    | ToolUseWithoutCalls
    | EndTurnWithCalls
    | TooManyIterations(maximum: nat)
    | EmptyCallId
    | EmptyToolName(id: CallId)
    | ReusedCallId(id: CallId)
    | Said(text: string)

  datatype ToolReceipt = ToolReceipt(
    callId: CallId, toolName: string, status: ReceiptStatus,
    action: Option<CanonicalAction>, output: Option<Value>, error: Option<Reason>)

  function SucceededReceipt(p: PreparedToolCall, output: Value): ToolReceipt {
    ToolReceipt(p.callId, p.action.toolName, Succeeded, Some(p.action), Some(output), None)
  }

  function FailedReceipt(p: PreparedToolCall, error: Reason): ToolReceipt {
    ToolReceipt(p.callId, p.action.toolName, Failed, Some(p.action), None, Some(error))
  }

  function DeniedReceipt(call: ToolCall, action: Option<CanonicalAction>, reason: Reason): ToolReceipt {
    ToolReceipt(call.id, call.name, Denied, action, None, Some(reason))
  }

  function MalformedReceipt(call: ToolCall, error: Reason): ToolReceipt {
    ToolReceipt(call.id, call.name, Failed, None, None, Some(error))
  }

  function UnknownReceipt(p: PreparedToolCall, reason: Reason): ToolReceipt {
    ToolReceipt(p.callId, p.action.toolName, Unknown, Some(p.action), None, Some(reason))
  }

  datatype StopReason = EndTurn | ToolUse | MaxTokens | Other

  datatype ModelResponse = ModelResponse(content: string, calls: seq<ToolCall>, stop: StopReason)

  datatype Decision = Approved(action: CanonicalAction) | Refused(reason: Reason)

  datatype HookPoint = BeforeModel | BeforeTool | AfterTool

  datatype Event =
    | ThreadStarted
    | TurnStarted
    | UserMessage(content: string)
    | ContextCompiled(iteration: nat, messageCount: nat, visibleTools: set<string>)
    | ModelRequestStarted(iteration: nat)
    | AssistantMessage(response: ModelResponse)
    | ToolPrepared(prepared: PreparedToolCall)
    | ApprovalRequested(callId: CallId, action: CanonicalAction)
    | ApprovalResolved(callId: CallId, decision: Decision)
    | ToolExecutionStarted(prepared: PreparedToolCall)
    | ToolReceiptRecorded(receipt: ToolReceipt)
    | HookFailed(point: HookPoint, reason: Reason)
    | TurnCompleted(content: string)
    | TurnFailed(error: Reason)
    | TurnCancelled
  {
    predicate Terminal() {
      TurnCompleted? || TurnFailed? || TurnCancelled?
    }
  }

  /** One durable record of one thread. */
  datatype Record = Record(turn: Option<TurnId>, event: Event)

  /** What the model is shown. */
  datatype Message =
    | User(content: string)
    | Assistant(content: string, calls: seq<ToolCall>)
    | Tool(receipt: ToolReceipt)

  function MessageOf(event: Event): seq<Message> {
    match event
    case UserMessage(content) => [User(content)]
    case AssistantMessage(r) => [Assistant(r.content, r.calls)]
    case ToolReceiptRecorded(receipt) => [Tool(receipt)]
    case _ => []
  }

  /** The transcript a replay of the log reconstructs. */
  function Transcript(log: seq<Record>): seq<Message> {
    if log == [] then [] else Transcript(log[..|log| - 1]) + MessageOf(log[|log| - 1].event)
  }

  lemma TranscriptAppend(log: seq<Record>, r: Record)
    ensures Transcript(log + [r]) == Transcript(log) + MessageOf(r.event)
  {
    assert (log + [r])[..|log + [r]| - 1] == log;
  }

  /** Every call of a model response has a usable, turn-unique id and a name. */
  predicate ValidCalls(calls: seq<ToolCall>, seen: set<CallId>) {
    && (forall i :: 0 <= i < |calls| ==> !Blank(calls[i].id) && !Blank(calls[i].name) && calls[i].id !in seen)
    && (forall i, j :: 0 <= i < j < |calls| ==> calls[i].id != calls[j].id)
  }

  function CallIds(calls: seq<ToolCall>): set<CallId> {
    set i | 0 <= i < |calls| :: calls[i].id
  }

  /** The reason the first unusable call is rejected for. */
  function CallError(call: ToolCall): Reason {
    if Blank(call.id) then EmptyCallId
    else if Blank(call.name) then EmptyToolName(call.id)
    else ReusedCallId(call.id)
  }

  predicate Usable(call: ToolCall, seen: set<CallId>) {
    !Blank(call.id) && !Blank(call.name) && call.id !in seen
  }

  lemma ValidCallsHead(calls: seq<ToolCall>, seen: set<CallId>)
    requires calls != []
    ensures ValidCalls(calls, seen) <==> Usable(calls[0], seen) && ValidCalls(calls[1..], seen + {calls[0].id})
  {
    var head, rest := calls[0], calls[1..];
    assert forall i :: 1 <= i < |calls| ==> calls[i] == rest[i - 1];
    if ValidCalls(calls, seen) {
      forall i | 0 <= i < |rest| ensures Usable(rest[i], seen + {head.id}) {
        assert rest[i] == calls[i + 1] && calls[0].id != calls[i + 1].id;
      }
    }
  }

  /** What is wrong with the first unusable call, if any is unusable. */
  function CallsError(calls: seq<ToolCall>, seen: set<CallId>): (error: Option<Reason>)
    ensures error.None? <==> ValidCalls(calls, seen)
  {
    if calls == [] then None else
      ValidCallsHead(calls, seen);
      if Usable(calls[0], seen) then CallsError(calls[1..], seen + {calls[0].id}) else Some(CallError(calls[0]))
  }

  /** Checks calls in order against the ids seen before and in this response. */
  method ValidateToolCalls(calls: seq<ToolCall>, previouslySeen: set<CallId>) returns (error: Option<Reason>)
    ensures error == CallsError(calls, previouslySeen)
  {
    var current := {};
    var n := 0;
    assert calls[0..] == calls && previouslySeen + {} == previouslySeen;
    while n < |calls|
      invariant 0 <= n <= |calls|
      invariant CallsError(calls[n..], previouslySeen + current) == CallsError(calls, previouslySeen)
    {
      var call := calls[n];
      assert calls[n..][0] == call && calls[n..][1..] == calls[n + 1..];
      if Blank(call.id) {
        return Some(EmptyCallId);
      }
      if Blank(call.name) {
        return Some(EmptyToolName(call.id));
      }
      if call.id in previouslySeen || call.id in current {
        return Some(ReusedCallId(call.id));
      }
      assert (previouslySeen + current) + {call.id} == previouslySeen + (current + {call.id});
      current := current + {call.id};
      n := n + 1;
    }
    error := None;
  }
}
