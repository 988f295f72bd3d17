/** Every step of the turn machine keeps its invariant, position by position. */
module TurnSteps {
  import opened Wrappers
  import opened Ids
  import opened Protocol
  import opened Policy
  import opened Journal
  import opened LogGrammar
  import opened Recovery
  import opened RecoveredLogs
  import opened TurnMachine
  import opened TurnSafety

  // ---- Taking up a thread and starting a turn ----

  lemma CheckingFits(log: seq<Record>, goal: Goal)
    requires Legal(log) && Read(log).value.created
    ensures (goal.RunTurn? && UsesTurn(log, goal.turn)) || FitsRecovery(Read(log).value, log, Plan(log), goal)
  {
    if goal.RunTurn? && goal.turn in Read(log).value.begun {
      BegunIsRecorded(log, goal.turn);
    }
  }

  lemma RecoveringFits(log: seq<Record>, todo: seq<Record>, goal: Goal)
    requires Legal(log) && FitsRecovery(Read(log).value, log, todo, goal)
    ensures var s := Read(log).value;
            if todo == [] then goal.RunTurn? ==> FitsStarting(s, goal.turn)
            else Admits(s, todo[0]) && FitsRecovery(Advance(s, todo[0]), log + [todo[0]], todo[1..], goal)
  {
    if todo == [] {
      NothingPlannedMeansClosed(log);
    } else {
      PlanHeadAdmitted(log);
      PlanAdvances(log);
      RecoveryStepLegal(log);
      ReadAppend(log, todo[0]);
    }
  }

  lemma GreetingFits(s: Scan, log: seq<Record>, turn: TurnId, input: string)
    requires FitsGreeting(s, turn)
    ensures var r := Record(Some(turn), UserMessage(input));
            Admits(s, r) && FitsLoop(Advance(s, r), log + [r], Vars(turn, 0, Transcript(log + [r]), {}), Looping)
  {
  }

  // ---- The model loop ----

  lemma LoopFits(s: Scan, log: seq<Record>, v: Vars, visible: set<string>, n: nat)
    ensures FitsLoop(s, log, v, Looping) ==>
              var r := By(v, ContextCompiled(v.iteration, n, visible));
              Admits(s, r) && FitsLoop(Advance(s, r), log + [r], v, Compiled)
    ensures FitsLoop(s, log, v, Compiled) ==>
              var r := By(v, ModelRequestStarted(v.iteration));
              Admits(s, r) && FitsLoop(Advance(s, r), log + [r], v, Requested)
  {
    TranscriptAppend(log, By(v, ContextCompiled(v.iteration, n, visible)));
    TranscriptAppend(log, By(v, ModelRequestStarted(v.iteration)));
  }

  /** A turn with nothing pending can be ended, with or without a hook failure first. */
  lemma ClosableOne(s: Scan, turn: TurnId, end: Event)
    requires s.open && s.current == turn
    requires end.TurnFailed?
        || (end.TurnCancelled? && s.pending == map[] && (s.phase == Looping || s.phase == Requested))
    ensures Closable(s, turn, [end])
  {
    assert [end][1..] == [];
  }

  lemma ClosableHook(s: Scan, turn: TurnId, point: HookPoint, error: Reason)
    requires s.open && s.current == turn && s.phase == Looping
    ensures Closable(s, turn, [HookFailed(point, error), TurnFailed(error)])
  {
    ClosableOne(s, turn, TurnFailed(error));
    assert [HookFailed(point, error), TurnFailed(error)][1..] == [TurnFailed(error)];
  }

  lemma FreshCallsAccepted(s: Scan, calls: seq<ToolCall>)
    requires ValidCalls(calls, {}) && s.pending == Slots(calls)
    ensures RestAccepted(s, calls, 0)
    ensures calls != [] ==> s.pending[calls[0].id].stage == Accepted
  {
    assert calls[0..] == calls;
    forall i | 0 <= i < |calls| ensures calls[i].id in s.pending && s.pending[calls[i].id].call == calls[i] {
      var slot := s.pending[calls[i].id];
      var j :| 0 <= j < |calls| && calls[j] == slot.call;
    }
  }

  lemma RepliedFits(s: Scan, log: seq<Record>, v: Vars, m: ModelResponse)
    requires FitsLoop(s, log, v, Requested) && ValidCalls(m.calls, v.seen)
    ensures var r := By(v, AssistantMessage(m));
            Admits(s, r) && FitsDeciding(Advance(s, r), log + [r],
              v.(transcript := v.transcript + [Assistant(m.content, m.calls)], seen := v.seen + CallIds(m.calls)), m)
  {
    var r := By(v, AssistantMessage(m));
    TranscriptAppend(log, r);
    FreshCallsAccepted(Advance(s, r), m.calls);
  }

  /** Denying every call from a position on, and then ending the turn, can all be appended. */
  lemma {:induction false} DeniedClosable(
    s: Scan, turn: TurnId, calls: seq<ToolCall>, index: nat, reason: Reason, end: Event)
    requires s.open && s.current == turn && RestAccepted(s, calls, index)
    requires index < |calls| ==> s.pending[calls[index].id].stage == Accepted
    requires end.TurnFailed? || (end.TurnCancelled? && (s.phase == Looping || s.phase.Answered?))
    ensures Closable(s, turn, DeniedEvents(calls[index..], reason) + [end])
    decreases |calls| - index
  {
    var ends := DeniedEvents(calls[index..], reason) + [end];
    if index == |calls| {
      assert ends == [end] && s.pending.Keys == {};
      assert s.pending == map[];
      assert ends[1..] == [];
    } else {
      var receipt := DeniedReceipt(calls[index], None, reason);
      assert calls[index..][1..] == calls[index + 1..];
      assert ends[0] == ToolReceiptRecorded(receipt);
      assert ends[1..] == DeniedEvents(calls[index + 1..], reason) + [end];
      RestShrinks(s, calls, index);
      DeniedClosable(Advance(s, Record(Some(turn), ends[0])), turn, calls, index + 1, reason, end);
    }
  }

  lemma CallIdsTail(calls: seq<ToolCall>, index: nat)
    requires index < |calls|
    ensures CallIds(calls[index..]) == CallIds(calls[index + 1..]) + {calls[index].id}
  {
    var all, rest := calls[index..], calls[index + 1..];
    assert forall i :: 0 <= i < |rest| ==> rest[i] == all[i + 1];
    assert all[0] == calls[index];
    assert forall i :: 1 <= i < |all| ==> all[i] == rest[i - 1];
  }

  lemma RestShrinks(s: Scan, calls: seq<ToolCall>, index: nat)
    requires RestAccepted(s, calls, index) && index < |calls|
    ensures RestAccepted(s.(pending := s.pending - {calls[index].id}), calls, index + 1)
    ensures index + 1 < |calls| ==> s.pending[calls[index + 1].id].stage == Accepted
  {
    CallIdsTail(calls, index);
    forall i | index < i < |calls| ensures calls[i].id in CallIds(calls[index + 1..]) {
      assert calls[index + 1..][i - index - 1] == calls[i];
    }
  }

  lemma DecidingFits(s: Scan, log: seq<Record>, v: Vars, m: ModelResponse, reason: Reason, end: Event)
    requires FitsDeciding(s, log, v, m)
    requires end.TurnFailed? || (end.TurnCancelled? && StopError(m).None?)
    ensures Closable(s, v.turn, DeniedEvents(m.calls, reason) + [end])
  {
    assert m.calls[0..] == m.calls;
    DeniedClosable(s, v.turn, m.calls, 0, reason, end);
  }

  // ---- The loop over calls ----

  /** Recording a receipt for a call that was never started moves on to the next call. */
  lemma SettleFits(s: Scan, log: seq<Record>, site: Site, receipt: ToolReceipt)
    requires FitsDenying(s, log, site, receipt)
    ensures var r := By(site.vars, ToolReceiptRecorded(receipt));
            Admits(s, r) && FitsCalling(Advance(s, r), log + [r], site.After(receipt))
  {
    TranscriptAppend(log, By(site.vars, ToolReceiptRecorded(receipt)));
    RestShrinks(s, site.calls, site.index);
  }

  lemma PreparedFits(s: Scan, log: seq<Record>, cfg: Config, site: Site, p: PreparedToolCall)
    requires FitsCalling(s, log, site) && Matched(cfg, site, p)
    ensures var r := By(site.vars, ToolPrepared(p));
            Admits(s, r) && FitsPrepared(Advance(s, r), log + [r], cfg, site, p, Ready(p, false))
  {
    TranscriptAppend(log, By(site.vars, ToolPrepared(p)));
  }

  /** At a call: the turn is cancelled, or the call is denied, or it is prepared. */
  lemma CallingFits(s: Scan, log: seq<Record>, cfg: Config, site: Site, choice: Choice)
    requires FitsCalling(s, log, site) && site.Valid() && AtCall(cfg, site, choice).Some?
    ensures var action := AtCall(cfg, site, choice).value;
            || (action.Goto? && action.next.Closing? && Closable(s, action.next.turn, action.next.ends))
            || (action.Append? && action.record.event.ToolReceiptRecorded?
                && action == Settle(site, action.record.event.receipt)
                     && FitsDenying(s, log, site, action.record.event.receipt))
            || (choice.Prepares?
                 && action == Append(By(site.vars, ToolPrepared(choice.prepared)), Hooking(site, choice.prepared))
                && Matched(cfg, site, choice.prepared))
  {
    if choice.Cancelled? {
      DeniedClosable(s, site.vars.turn, site.calls, site.index, CancelledBeforePreparation, TurnCancelled);
    }
  }

  lemma HookFits(s: Scan, log: seq<Record>, cfg: Config, site: Site, p: PreparedToolCall, error: Reason)
    requires FitsPrepared(s, log, cfg, site, p, Ready(p, false))
    ensures var r := By(site.vars, HookFailed(BeforeTool, error));
            Admits(s, r)
                && FitsDenying(Advance(s, r), log + [r], site, DeniedReceipt(site.Call(), Some(p.action), error))
    ensures var r := By(site.vars, ApprovalRequested(site.Call().id, p.action));
            Admits(s, r) && FitsPrepared(Advance(s, r), log + [r], cfg, site, p, Ready(p, false))
  {
    TranscriptAppend(log, By(site.vars, HookFailed(BeforeTool, error)));
    TranscriptAppend(log, By(site.vars, ApprovalRequested(site.Call().id, p.action)));
  }

  lemma ApprovedFits(s: Scan, log: seq<Record>, cfg: Config, site: Site, p: PreparedToolCall, decision: Decision)
    requires FitsPrepared(s, log, cfg, site, p, Ready(p, false))
    ensures var r := By(site.vars, ApprovalResolved(p.callId, decision));
            Admits(s, r)
                && FitsPrepared(Advance(s, r), log + [r], cfg, site, p, Ready(p, decision == Approved(p.action)))
  {
    TranscriptAppend(log, By(site.vars, ApprovalResolved(p.callId, decision)));
  }

  /** Starting the execution of a call that may run. */
  lemma StartedFits(s: Scan, log: seq<Record>, cfg: Config, site: Site, p: PreparedToolCall, approved: bool)
    requires FitsPrepared(s, log, cfg, site, p, Ready(p, approved)) && Granted(cfg, p.action.toolName, approved)
    ensures var r := By(site.vars, ToolExecutionStarted(p));
            Admits(s, r) && FitsEntering(Advance(s, r), log + [r], cfg, site, p)
  {
    TranscriptAppend(log, By(site.vars, ToolExecutionStarted(p)));
  }

  lemma RecordedFits(s: Scan, log: seq<Record>, cfg: Config, site: Site, p: PreparedToolCall, result: ExecResult)
    requires FitsStarted(s, log, cfg, site, p)
    ensures var r := By(site.vars, ToolReceiptRecorded(ReceiptOf(p, result)));
            Admits(s, r) && FitsSettled(Advance(s, r), log + [r], site, ReceiptOf(p, result))
  {
    TranscriptAppend(log, By(site.vars, ToolReceiptRecorded(ReceiptOf(p, result))));
    RestShrinks(s, site.calls, site.index);
  }

  // ---- All positions together ----

  /** An action leaves the holder where the log then says it may be. */
  predicate ActionFits(log: seq<Record>, s: Scan, cfg: Config, action: Action) {
    match action
    case Append(r, next) => Admits(s, r) && PcFits(next, log + [r], Advance(s, r), cfg)
    case Goto(next) => PcFits(next, log, s, cfg)
    case Enter(_, _, next) => PcFits(next, log, s, cfg)
    case Return(_, next) => PcFits(next, log, s, cfg)
  }

  lemma AppendFits(cfg: Config, log: seq<Record>, s: Scan, r: Record, next: Pc)
    requires Admits(s, r) && PcFits(next, log + [r], Advance(s, r), cfg)
    ensures ActionFits(log, s, cfg, Append(r, next))
  {
  }

  lemma ClosingActionFits(cfg: Config, log: seq<Record>, s: Scan, turn: TurnId, ends: seq<Event>)
    requires Closable(s, turn, ends)
    ensures ActionFits(log, s, cfg, Goto(Closing(turn, ends)))
  {
  }

  lemma LoopPosition(cfg: Config, log: seq<Record>, s: Scan, v: Vars)
    ensures FitsLoop(s, log, v, Looping) ==> PcFits(Head(v), log, s, cfg)
    ensures FitsLoop(s, log, v, Compiled) ==> PcFits(Requesting(v), log, s, cfg)
    ensures FitsLoop(s, log, v, Requested) ==> PcFits(AwaitingModel(v), log, s, cfg)
  {
  }

  lemma CallingPosition(cfg: Config, log: seq<Record>, s: Scan, site: Site)
    requires FitsCalling(s, log, site)
    ensures PcFits(Calling(site), log, s, cfg)
  {
  }

  lemma PreparedPosition(cfg: Config, log: seq<Record>, s: Scan, site: Site, p: PreparedToolCall)
    ensures FitsPrepared(s, log, cfg, site, p, Ready(p, false)) ==> PcFits(Hooking(site, p), log, s, cfg)
    ensures (FitsPrepared(s, log, cfg, site, p, Ready(p, false)) && NeedsApproval(cfg, site))
              ==> PcFits(AwaitingApproval(site, p), log, s, cfg)
    ensures FitsEntering(s, log, cfg, site, p) ==> PcFits(Entering(site, p), log, s, cfg)
  {
  }

  lemma ReceiptPosition(cfg: Config, log: seq<Record>, s: Scan, site: Site, receipt: ToolReceipt)
    ensures FitsDenying(s, log, site, receipt) ==> PcFits(Denying(site, receipt), log, s, cfg)
    ensures FitsSettled(s, log, site, receipt) ==> PcFits(Settled(site, receipt), log, s, cfg)
  {
  }

  predicate Opening(pc: Pc) {
    pc.Checking? || pc.Recovering? || pc.Starting? || pc.Greeting?
  }

  predicate Modelling(pc: Pc) {
    pc.Head? || pc.Requesting? || pc.AwaitingModel? || pc.Deciding?
  }

  lemma RecoveryActionFits(
    cfg: Config, log: seq<Record>, s: Scan, todo: seq<Record>, goal: Goal, n: nat, choice: Choice)
    requires todo == [] ==> goal.RunTurn? ==> FitsStarting(s, goal.turn)
    requires todo != [] ==> Admits(s, todo[0]) && FitsRecovery(Advance(s, todo[0]), log + [todo[0]], todo[1..], goal)
    ensures ActionFits(log, s, cfg, Program(cfg, log, Recovering(todo, goal, n), choice).value)
  {
    if todo != [] {
      AppendFits(cfg, log, s, todo[0], Recovering(todo[1..], goal, n + 1));
    }
  }

  lemma RecoveringActionFits(cfg: Config, log: seq<Record>, todo: seq<Record>, goal: Goal, n: nat, choice: Choice)
    requires Legal(log) && FitsRecovery(Read(log).value, log, todo, goal)
    ensures ActionFits(log, Read(log).value, cfg, Program(cfg, log, Recovering(todo, goal, n), choice).value)
  {
    RecoveringFits(log, todo, goal);
    RecoveryActionFits(cfg, log, Read(log).value, todo, goal, n, choice);
  }

  lemma StartingActionFits(cfg: Config, log: seq<Record>, s: Scan, turn: TurnId, input: string)
    requires FitsStarting(s, turn)
    ensures ActionFits(log, s, cfg, Append(Record(Some(turn), TurnStarted), Greeting(turn, input)))
  {
  }

  lemma GreetingActionFits(cfg: Config, log: seq<Record>, s: Scan, turn: TurnId, input: string)
    requires FitsGreeting(s, turn)
    ensures var r := Record(Some(turn), UserMessage(input));
            ActionFits(log, s, cfg, Append(r, Head(Vars(turn, 0, Transcript(log + [r]), {}))))
  {
    var r := Record(Some(turn), UserMessage(input));
    var v := Vars(turn, 0, Transcript(log + [r]), {});
    GreetingFits(s, log, turn, input);
    LoopPosition(cfg, log + [r], Advance(s, r), v);
    AppendFits(cfg, log, s, r, Head(v));
  }

  lemma OpeningFits(cfg: Config, log: seq<Record>, pc: Pc, choice: Choice)
    requires Legal(log) && PcFits(pc, log, Read(log).value, cfg) && Opening(pc)
    ensures ActionFits(log, Read(log).value, cfg, Program(cfg, log, pc, choice).value)
  {
    match pc {
      case Checking(goal) => CheckingFits(log, goal);
      case Recovering(todo, goal, n) => RecoveringActionFits(cfg, log, todo, goal, n, choice);
      case Starting(turn, input) => StartingActionFits(cfg, log, Read(log).value, turn, input);
      case Greeting(turn, input) => GreetingActionFits(cfg, log, Read(log).value, turn, input);
    }
  }

  lemma CompiledActionFits(cfg: Config, log: seq<Record>, s: Scan, v: Vars, n: nat)
    requires FitsLoop(s, log, v, Looping)
    ensures ActionFits(log, s, cfg,
              Append(By(v, ContextCompiled(v.iteration, n, cfg.Capabilities().Visible())), Requesting(v)))
  {
    var r := By(v, ContextCompiled(v.iteration, n, cfg.Capabilities().Visible()));
    LoopFits(s, log, v, cfg.Capabilities().Visible(), n);
    LoopPosition(cfg, log + [r], Advance(s, r), v);
    AppendFits(cfg, log, s, r, Requesting(v));
  }

  lemma RequestingActionFits(cfg: Config, log: seq<Record>, s: Scan, v: Vars)
    requires FitsLoop(s, log, v, Compiled)
    ensures ActionFits(log, s, cfg, Append(By(v, ModelRequestStarted(v.iteration)), AwaitingModel(v)))
  {
    var r := By(v, ModelRequestStarted(v.iteration));
    LoopFits(s, log, v, {}, 0);
    LoopPosition(cfg, log + [r], Advance(s, r), v);
    AppendFits(cfg, log, s, r, AwaitingModel(v));
  }

  /** Ending a turn from the loop, for one event or for a hook failure and the end. */
  lemma EndActionFits(cfg: Config, log: seq<Record>, s: Scan, v: Vars, phase: Phase, end: Event)
    requires FitsLoop(s, log, v, phase) && (phase == Looping || phase == Requested)
    requires end.TurnFailed? || end.TurnCancelled?
    ensures ActionFits(log, s, cfg, Goto(Closing(v.turn, [end])))
  {
    ClosableOne(s, v.turn, end);
    ClosingActionFits(cfg, log, s, v.turn, [end]);
  }

  lemma HookEndActionFits(cfg: Config, log: seq<Record>, s: Scan, turn: TurnId, point: HookPoint, error: Reason)
    requires s.open && s.current == turn && s.phase == Looping
    ensures ActionFits(log, s, cfg, Goto(Closing(turn, [HookFailed(point, error), TurnFailed(error)])))
  {
    ClosableHook(s, turn, point, error);
    ClosingActionFits(cfg, log, s, turn, [HookFailed(point, error), TurnFailed(error)]);
  }

  lemma HeadActionFits(cfg: Config, log: seq<Record>, s: Scan, v: Vars, choice: Choice)
    requires FitsLoop(s, log, v, Looping) && AtHead(cfg, v, choice).Some?
    ensures ActionFits(log, s, cfg, AtHead(cfg, v, choice).value)
  {
    if v.iteration >= cfg.maxIterations {
      EndActionFits(cfg, log, s, v, Looping, TurnFailed(TooManyIterations(cfg.maxIterations)));
    } else {
      match choice {
        case Cancelled => EndActionFits(cfg, log, s, v, Looping, TurnCancelled);
        case CompileFails(error) => EndActionFits(cfg, log, s, v, Looping, TurnFailed(error));
        case HookFails(error) => HookEndActionFits(cfg, log, s, v.turn, BeforeModel, error);
        case Compiles(n) => CompiledActionFits(cfg, log, s, v, n);
      }
    }
  }

  lemma AcceptedReplyFits(cfg: Config, log: seq<Record>, s: Scan, v: Vars, m: ModelResponse)
    requires FitsLoop(s, log, v, Requested) && ValidCalls(m.calls, v.seen)
    ensures ActionFits(log, s, cfg, Append(By(v, AssistantMessage(m)), Deciding(
              v.(transcript := v.transcript + [Assistant(m.content, m.calls)], seen := v.seen + CallIds(m.calls)), m)))
  {
    RepliedFits(s, log, v, m);
  }

  lemma ModelActionFits(cfg: Config, log: seq<Record>, s: Scan, v: Vars, choice: Choice)
    requires FitsLoop(s, log, v, Requested) && AtModel(v, choice).Some?
    ensures ActionFits(log, s, cfg, AtModel(v, choice).value)
  {
    if choice.ModelFails? {
      EndActionFits(cfg, log, s, v, Requested, if choice.cancelled then TurnCancelled else TurnFailed(choice.error));
    } else if ValidCalls(choice.response.calls, v.seen) {
      AcceptedReplyFits(cfg, log, s, v, choice.response);
    } else {
      EndActionFits(cfg, log, s, v, Requested, TurnFailed(CallsError(choice.response.calls, v.seen).value));
    }
  }

  lemma DecidedFits(cfg: Config, log: seq<Record>, s: Scan, v: Vars, m: ModelResponse)
    requires FitsDeciding(s, log, v, m) && StopError(m).None?
    ensures m.calls == [] ==> ActionFits(log, s, cfg, Append(By(v, TurnCompleted(m.content)), Free))
    ensures m.calls != [] ==> ActionFits(log, s, cfg, Goto(Calling(Site(v, m.calls, 0))))
  {
  }

  lemma DecidingActionFits(cfg: Config, log: seq<Record>, s: Scan, v: Vars, m: ModelResponse, choice: Choice)
    requires FitsDeciding(s, log, v, m) && AtDecision(v, m, choice).Some?
    ensures ActionFits(log, s, cfg, AtDecision(v, m, choice).value)
  {
    if StopError(m).Some? {
      var reason := StopError(m).value;
      DecidingFits(s, log, v, m, reason, TurnFailed(reason));
      ClosingActionFits(cfg, log, s, v.turn, DeniedEvents(m.calls, reason) + [TurnFailed(reason)]);
    } else if choice.Cancelled? {
      DecidingFits(s, log, v, m, CancelledBeforePreparation, TurnCancelled);
      ClosingActionFits(cfg, log, s, v.turn, DeniedEvents(m.calls, CancelledBeforePreparation) + [TurnCancelled]);
    } else {
      DecidedFits(cfg, log, s, v, m);
    }
  }

  lemma ModellingFits(cfg: Config, log: seq<Record>, s: Scan, pc: Pc, choice: Choice)
    requires PcFits(pc, log, s, cfg) && Modelling(pc) && Program(cfg, log, pc, choice).Some?
    ensures ActionFits(log, s, cfg, Program(cfg, log, pc, choice).value)
  {
    var action := Program(cfg, log, pc, choice).value;
    match pc {
      case Head(v) => assert action == AtHead(cfg, v, choice).value; HeadActionFits(cfg, log, s, v, choice);
      case Requesting(v) => RequestingActionFits(cfg, log, s, v);
      case AwaitingModel(v) => assert action == AtModel(v, choice).value; ModelActionFits(cfg, log, s, v, choice);
      case Deciding(v, m) => DecidingActionFits(cfg, log, s, v, m, choice);
    }
  }

  lemma SettleActionFits(cfg: Config, log: seq<Record>, s: Scan, site: Site, receipt: ToolReceipt)
    requires FitsDenying(s, log, site, receipt)
    ensures ActionFits(log, s, cfg, Settle(site, receipt))
  {
    var r := By(site.vars, ToolReceiptRecorded(receipt));
    SettleFits(s, log, site, receipt);
    CallingPosition(cfg, log + [r], Advance(s, r), site.After(receipt));
    AppendFits(cfg, log, s, r, Calling(site.After(receipt)));
  }

  lemma PreparedActionFits(cfg: Config, log: seq<Record>, s: Scan, site: Site, p: PreparedToolCall)
    requires FitsCalling(s, log, site) && Matched(cfg, site, p)
    ensures ActionFits(log, s, cfg, Append(By(site.vars, ToolPrepared(p)), Hooking(site, p)))
  {
    var r := By(site.vars, ToolPrepared(p));
    PreparedFits(s, log, cfg, site, p);
    PreparedPosition(cfg, log + [r], Advance(s, r), site, p);
    AppendFits(cfg, log, s, r, Hooking(site, p));
  }

  lemma CallActionFits(cfg: Config, log: seq<Record>, s: Scan, site: Site, choice: Choice)
    requires FitsCalling(s, log, site) && site.Valid() && AtCall(cfg, site, choice).Some?
    ensures ActionFits(log, s, cfg, AtCall(cfg, site, choice).value)
  {
    CallingFits(s, log, cfg, site, choice);
    var action := AtCall(cfg, site, choice).value;
    if action.Append? {
      if action.record.event.ToolReceiptRecorded? {
        SettleActionFits(cfg, log, s, site, action.record.event.receipt);
      } else {
        PreparedActionFits(cfg, log, s, site, choice.prepared);
      }
    }
  }

  lemma StartedActionFits(cfg: Config, log: seq<Record>, s: Scan, site: Site, p: PreparedToolCall, approved: bool)
    requires FitsPrepared(s, log, cfg, site, p, Ready(p, approved)) && Granted(cfg, p.action.toolName, approved)
    ensures ActionFits(log, s, cfg, Append(By(site.vars, ToolExecutionStarted(p)), Entering(site, p)))
  {
    var r := By(site.vars, ToolExecutionStarted(p));
    StartedFits(s, log, cfg, site, p, approved);
    PreparedPosition(cfg, log + [r], Advance(s, r), site, p);
    AppendFits(cfg, log, s, r, Entering(site, p));
  }

  lemma RefusedHookFits(cfg: Config, log: seq<Record>, s: Scan, site: Site, p: PreparedToolCall, error: Reason)
    requires FitsPrepared(s, log, cfg, site, p, Ready(p, false))
    ensures ActionFits(log, s, cfg,
              Append(By(site.vars, HookFailed(BeforeTool, error)),
                  Denying(site, DeniedReceipt(site.Call(), Some(p.action), error))))
  {
    var r, receipt := By(site.vars, HookFailed(BeforeTool, error)), DeniedReceipt(site.Call(), Some(p.action), error);
    HookFits(s, log, cfg, site, p, error);
    ReceiptPosition(cfg, log + [r], Advance(s, r), site, receipt);
    AppendFits(cfg, log, s, r, Denying(site, receipt));
  }

  lemma AskingFits(cfg: Config, log: seq<Record>, s: Scan, site: Site, p: PreparedToolCall)
    requires FitsPrepared(s, log, cfg, site, p, Ready(p, false)) && NeedsApproval(cfg, site)
    ensures ActionFits(log, s, cfg,
        Append(By(site.vars, ApprovalRequested(site.Call().id, p.action)), AwaitingApproval(site, p)))
  {
    var r := By(site.vars, ApprovalRequested(site.Call().id, p.action));
    HookFits(s, log, cfg, site, p, NotRegistered);
    PreparedPosition(cfg, log + [r], Advance(s, r), site, p);
    AppendFits(cfg, log, s, r, AwaitingApproval(site, p));
  }

  lemma HookActionFits(cfg: Config, log: seq<Record>, s: Scan, site: Site, p: PreparedToolCall, choice: Choice)
    requires FitsPrepared(s, log, cfg, site, p, Ready(p, false)) && AtHook(cfg, site, p, choice).Some?
    ensures ActionFits(log, s, cfg, AtHook(cfg, site, p, choice).value)
  {
    if choice.HookFails? {
      RefusedHookFits(cfg, log, s, site, p, choice.error);
    } else if cfg.Capabilities().Grant(site.Call().name) == Ask {
      AskingFits(cfg, log, s, site, p);
    } else {
      StartedActionFits(cfg, log, s, site, p, false);
    }
  }

  lemma CallsDone(s: Scan, log: seq<Record>, site: Site)
    requires FitsCalling(s, log, site) && !site.Valid()
    ensures FitsLoop(s, log, site.vars.(iteration := site.vars.iteration + 1), Looping)
  {
    assert s.pending.Keys == {};
    assert s.pending == map[];
  }

  lemma CallLoopFits(cfg: Config, log: seq<Record>, s: Scan, pc: Pc, choice: Choice)
    requires PcFits(pc, log, s, cfg) && (pc.Calling? || pc.Hooking? || pc.Denying?)
        && Program(cfg, log, pc, choice).Some?
    ensures ActionFits(log, s, cfg, Program(cfg, log, pc, choice).value)
  {
    match pc {
      case Calling(site) =>
        if site.Valid() {
          CallActionFits(cfg, log, s, site, choice);
        } else {
          CallsDone(s, log, site);
        }
      case Hooking(site, p) => HookActionFits(cfg, log, s, site, p, choice);
      case Denying(site, receipt) => SettleFits(s, log, site, receipt);
    }
  }

  lemma ResolvedActionFits(cfg: Config, log: seq<Record>, s: Scan, pc: Pc, choice: Choice)
    requires PcFits(pc, log, s, cfg) && pc.Resolved?
    ensures ActionFits(log, s, cfg, Program(cfg, log, pc, choice).value)
  {
    var Resolved(site, p, decision) := pc;
    if DenialReason(p, decision).Some? {
      SettleActionFits(cfg, log, s, site, DeniedReceipt(site.Call(), Some(p.action), DenialReason(p, decision).value));
    } else {
      StartedActionFits(cfg, log, s, site, p, true);
    }
  }

  lemma SettledActionFits(cfg: Config, log: seq<Record>, s: Scan, pc: Pc, choice: Choice)
    requires PcFits(pc, log, s, cfg) && pc.Settled? && Program(cfg, log, pc, choice).Some?
    ensures ActionFits(log, s, cfg, Program(cfg, log, pc, choice).value)
  {
    if choice.HookFails? {
      HookEndActionFits(cfg, log, s, pc.site.vars.turn, AfterTool, choice.error);
    }
  }

  lemma ApprovedActionFits(cfg: Config, log: seq<Record>, s: Scan, pc: Pc, choice: Choice)
    requires PcFits(pc, log, s, cfg) && pc.AwaitingApproval? && Program(cfg, log, pc, choice).Some?
    ensures ActionFits(log, s, cfg, Program(cfg, log, pc, choice).value)
  {
    ApprovedFits(s, log, cfg, pc.site, pc.prepared, choice.decision);
  }

  lemma RecordedActionFits(cfg: Config, log: seq<Record>, s: Scan, pc: Pc, choice: Choice)
    requires PcFits(pc, log, s, cfg) && pc.Recording?
    ensures ActionFits(log, s, cfg, Program(cfg, log, pc, choice).value)
  {
    var receipt := ReceiptOf(pc.prepared, pc.result);
    var r := By(pc.site.vars, ToolReceiptRecorded(receipt));
    RecordedFits(s, log, cfg, pc.site, pc.prepared, pc.result);
    ReceiptPosition(cfg, log + [r], Advance(s, r), pc.site, receipt);
    AppendFits(cfg, log, s, r, Settled(pc.site, receipt));
  }

  lemma EnteringActionFits(cfg: Config, log: seq<Record>, s: Scan, pc: Pc, choice: Choice)
    requires PcFits(pc, log, s, cfg) && pc.Entering? && Program(cfg, log, pc, choice).Some?
    ensures ActionFits(log, s, cfg, Program(cfg, log, pc, choice).value)
  {
  }

  lemma ExecutingActionFits(cfg: Config, log: seq<Record>, s: Scan, pc: Pc, choice: Choice)
    requires PcFits(pc, log, s, cfg) && pc.Executing? && Program(cfg, log, pc, choice).Some?
    ensures ActionFits(log, s, cfg, Program(cfg, log, pc, choice).value)
  {
  }

  lemma ClosingStepFits(cfg: Config, log: seq<Record>, s: Scan, pc: Pc, choice: Choice)
    requires PcFits(pc, log, s, cfg) && pc.Closing?
    ensures ActionFits(log, s, cfg, Program(cfg, log, pc, choice).value)
  {
  }

  lemma ExecutionFits(cfg: Config, log: seq<Record>, s: Scan, pc: Pc, choice: Choice)
    requires PcFits(pc, log, s, cfg) && Program(cfg, log, pc, choice).Some?
    requires !Opening(pc) && !Modelling(pc) && !pc.Calling? && !pc.Hooking? && !pc.Denying?
    ensures ActionFits(log, s, cfg, Program(cfg, log, pc, choice).value)
  {
    match pc {
      case AwaitingApproval(_, _) => ApprovedActionFits(cfg, log, s, pc, choice);
      case Resolved(_, _, _) => ResolvedActionFits(cfg, log, s, pc, choice);
      case Entering(_, _) => EnteringActionFits(cfg, log, s, pc, choice);
      case Executing(_, _) => ExecutingActionFits(cfg, log, s, pc, choice);
      case Recording(_, _, _) => RecordedActionFits(cfg, log, s, pc, choice);
      case Settled(_, _) => SettledActionFits(cfg, log, s, pc, choice);
      case Closing(_, _) => ClosingStepFits(cfg, log, s, pc, choice);
    }
  }

  lemma EveryActionFits(cfg: Config, log: seq<Record>, pc: Pc, choice: Choice)
    requires Legal(log) && PcFits(pc, log, Read(log).value, cfg) && Program(cfg, log, pc, choice).Some?
    ensures ActionFits(log, Read(log).value, cfg, Program(cfg, log, pc, choice).value)
  {
    if Opening(pc) {
      OpeningFits(cfg, log, pc, choice);
    } else if Modelling(pc) {
      ModellingFits(cfg, log, Read(log).value, pc, choice);
    } else if pc.Calling? || pc.Hooking? || pc.Denying? {
      CallLoopFits(cfg, log, Read(log).value, pc, choice);
    } else {
      ExecutionFits(cfg, log, Read(log).value, pc, choice);
    }
  }

  // ---- Receipts are truthful ----

  /** What recovery writes about executor calls that really happened is true. */
  lemma PlannedIsTruthful(th: Thread)
    requires Inv(th) && Plan(th.log) != []
    ensures Truthful(Plan(th.log)[0], th.entries)
  {
    var r := Plan(th.log)[0];
    PlanHeadAdmitted(th.log);
    if r.event.ToolReceiptRecorded? {
      var s := Read(th.log).value;
      var id := r.event.receipt.callId;
      RecoveredReceiptsAreHonest(th.log, r);
      if s.pending[id].stage.Started? {
        LegalLogsAreEvidenced(th.log);
        assert StageEvidence(th.log, s.current, id, s.pending[id]);
        assert Record(r.turn, ToolExecutionStarted(s.pending[id].stage.prepared)) in th.log;
        assert r.event.receipt.status == Unknown;
      }
      UnknownIsTruthful(th, r);
    } else {
      NotReceiptIsTruthful(r, th.entries);
    }
  }

  lemma ReturnedIsTruthful(
    entries: seq<Entry>, r: Record, turn: TurnId, p: PreparedToolCall, cfg: Config, result: ExecResult)
    requires forall i, j :: 0 <= i < j < |entries| ==> entries[i].Key() != entries[j].Key()
    requires LastEntry(entries, turn, p, cfg, Some(result))
    requires r == Record(Some(turn), ToolReceiptRecorded(ReceiptOf(p, result)))
    ensures Truthful(r, entries)
  {
    var n := |entries| - 1;
    forall i | 0 <= i < |entries| && Receives(entries[i].Key()).On(r) ensures Honest(r.event.receipt, entries[i]) {
      assert entries[i].Key() == entries[n].Key();
      assert i == n;
    }
  }

  /** Outside recovery and the executor's own answer, receipts are for calls that were not started. */
  lemma DeniedIsUnstarted(cfg: Config, log: seq<Record>, s: Scan, pc: Pc, choice: Choice)
    requires PcFits(pc, log, s, cfg) && Program(cfg, log, pc, choice).Some? && !pc.Recovering? && !pc.Recording?
    requires Program(cfg, log, pc, choice).value.Append?
    ensures var r := Program(cfg, log, pc, choice).value.record;
            r.event.ToolReceiptRecorded? && Admits(s, r) ==> !s.pending[r.event.receipt.callId].stage.Started?
  {
  }

  lemma SettledIsTruthful(th: Thread, choice: Choice)
    requires Inv(th) && Program(th.config, th.log, th.pc, choice).Some? && !th.pc.Recovering? && !th.pc.Recording?
    requires Program(th.config, th.log, th.pc, choice).value.Append?
    requires Program(th.config, th.log, th.pc, choice).value.record.event.ToolReceiptRecorded?
    ensures Truthful(Program(th.config, th.log, th.pc, choice).value.record, th.entries)
  {
    EveryActionFits(th.config, th.log, th.pc, choice);
    DeniedIsUnstarted(th.config, th.log, Read(th.log).value, th.pc, choice);
    UnstartedIsTruthful(th, Program(th.config, th.log, th.pc, choice).value.record);
  }

  lemma EveryAppendIsTruthful(th: Thread, choice: Choice)
    requires Inv(th) && Program(th.config, th.log, th.pc, choice).Some?
    requires Program(th.config, th.log, th.pc, choice).value.Append?
    ensures Truthful(Program(th.config, th.log, th.pc, choice).value.record, th.entries)
  {
    var r := Program(th.config, th.log, th.pc, choice).value.record;
    if !r.event.ToolReceiptRecorded? {
      NotReceiptIsTruthful(r, th.entries);
    } else if th.pc.Recovering? {
      PlannedIsTruthful(th);
    } else if th.pc.Recording? {
      ReturnedIsTruthful(th.entries, r, th.pc.site.vars.turn, th.pc.prepared, th.config, th.pc.result);
    } else {
      SettledIsTruthful(th, choice);
    }
  }

  // ---- The history of executor calls ----

  /** A prepared call that was not started was never entered. */
  lemma ReadyIsUntried(th: Thread, id: CallId)
    requires Inv(th) && id in Read(th.log).value.pending && !Read(th.log).value.pending[id].stage.Started?
    ensures Untried(th.entries, KeyIn(Read(th.log).value, id))
  {
    forall i | 0 <= i < |th.entries| ensures th.entries[i].Key() != KeyIn(Read(th.log).value, id) {
      assert EntryFits(th.log, th.Durable(), th.entries[i]);
      if th.entries[i].Key() == KeyIn(Read(th.log).value, id) {
        EnteredIsStarted(th.log, th.entries[i]);
      }
    }
  }

  /** Nothing is recorded about a call that is being executed. */
  lemma NoReceiptYet(th: Thread, e: Entry, r: ToolReceipt)
    requires Legal(th.log) && th.landed == [] && Awaiting(Read(th.log).value, e.Key()) && r.callId == e.prepared.callId
    ensures Record(Some(e.turn), ToolReceiptRecorded(r)) !in th.Durable()
  {
    AwaitingHasNoReceipt(th.log, e.Key(), r);
    assert th.Durable() == th.log;
  }

  lemma NewEntryFits(th: Thread, site: Site, p: PreparedToolCall)
    requires Legal(th.log) && th.landed == [] && FitsEntering(Read(th.log).value, th.log, th.config, site, p)
    ensures EntryFits(th.log, th.Durable(), Entry(site.vars.turn, p, th.config, None))
  {
    var s := Read(th.log).value;
    var e := Entry(site.vars.turn, p, th.config, None);
    LegalLogsAreEvidenced(th.log);
    assert StageEvidence(th.log, s.current, p.callId, s.pending[p.callId]);
    forall r: ToolReceipt | r.callId == p.callId ensures Record(Some(e.turn), ToolReceiptRecorded(r)) !in th.Durable() {
      NoReceiptYet(th, e, r);
    }
  }

  lemma AnsweredEntryFits(th: Thread, site: Site, p: PreparedToolCall, e: Entry, result: ExecResult)
    requires Legal(th.log) && th.landed == [] && FitsStarted(Read(th.log).value, th.log, th.config, site, p)
    requires EntryFits(th.log, th.Durable(), e) && e.turn == site.vars.turn && e.prepared == p
    ensures EntryFits(th.log, th.Durable(), e.(result := Some(result)))
  {
    forall r: ToolReceipt | r.callId == p.callId ensures Record(Some(e.turn), ToolReceiptRecorded(r)) !in th.Durable() {
      NoReceiptYet(th, e, r);
    }
  }

  function Answered(entries: seq<Entry>, result: ExecResult): seq<Entry>
    requires entries != []
  {
    entries[|entries| - 1 := entries[|entries| - 1].(result := Some(result))]
  }

  lemma HistoryExtended(log: seq<Record>, durable: seq<Record>, entries: seq<Entry>, e: Entry)
    requires HistoryFits(log, durable, entries) && EntryFits(log, durable, e) && Untried(entries, e.Key())
    ensures HistoryFits(log, durable, entries + [e])
  {
    assert forall i :: 0 <= i < |entries| ==> (entries + [e])[i] == entries[i];
  }

  lemma HistoryAnswered(log: seq<Record>, durable: seq<Record>, entries: seq<Entry>, result: ExecResult)
    requires HistoryFits(log, durable, entries) && entries != []
    requires EntryFits(log, durable, entries[|entries| - 1].(result := Some(result)))
    ensures HistoryFits(log, durable, Answered(entries, result))
  {
    var es := Answered(entries, result);
    assert forall i :: 0 <= i < |es| ==> es[i].Key() == entries[i].Key();
    assert forall i :: 0 <= i < |es| - 1 ==> es[i] == entries[i];
  }

  lemma PlacedKeepsInv(th: Thread, entries: seq<Entry>, next: Pc)
    requires Inv(th) && th.landed == []
    requires PcFits(next, th.log, Read(th.log).value, th.config) && EntriesAt(next, entries, th.config)
    requires HistoryFits(th.log, th.Durable(), entries)
    ensures Inv(th.(entries := entries, pc := next))
  {
    assert th.(entries := entries, pc := next).Durable() == th.Durable();
  }

  lemma EnteringStep(th: Thread)
    requires Inv(th) && th.pc.Entering?
    ensures Inv(th.(entries := th.entries + [Entry(th.pc.site.vars.turn, th.pc.prepared, th.config, None)],
                    pc := Executing(th.pc.site, th.pc.prepared)))
  {
    NewEntryFits(th, th.pc.site, th.pc.prepared);
    HistoryExtended(th.log, th.Durable(), th.entries, Entry(th.pc.site.vars.turn, th.pc.prepared, th.config, None));
  }

  lemma AnsweredHistory(th: Thread, site: Site, p: PreparedToolCall, result: ExecResult)
    requires Inv(th) && th.pc == Executing(site, p)
    ensures th.landed == [] && th.entries != [] && HistoryFits(th.log, th.Durable(), Answered(th.entries, result))
  {
    AnsweredEntryFits(th, site, p, th.entries[|th.entries| - 1], result);
    HistoryAnswered(th.log, th.Durable(), th.entries, result);
  }

  lemma AnsweredPosition(
    cfg: Config, log: seq<Record>, s: Scan, entries: seq<Entry>, site: Site, p: PreparedToolCall, result: ExecResult)
    requires PcFits(Executing(site, p), log, s, cfg) && EntriesAt(Executing(site, p), entries, cfg)
    ensures PcFits(Recording(site, p, result), log, s, cfg)
    ensures EntriesAt(Recording(site, p, result), Answered(entries, result), cfg)
  {
  }

  lemma ExecutingStep(th: Thread, result: ExecResult)
    requires Inv(th) && th.pc.Executing?
    ensures Inv(th.(entries := Answered(th.entries, result), pc := Recording(th.pc.site, th.pc.prepared, result)))
  {
    AnsweredHistory(th, th.pc.site, th.pc.prepared, result);
    AnsweredPosition(th.config, th.log, Read(th.log).value, th.entries, th.pc.site, th.pc.prepared, result);
    PlacedKeepsInv(th, Answered(th.entries, result), Recording(th.pc.site, th.pc.prepared, result));
  }

  // ---- Every step ----

  /** Only starting an execution leads to the executor, and only from a prepared call. */
  lemma WhereActionsLead(cfg: Config, log: seq<Record>, pc: Pc, choice: Choice)
    requires Program(cfg, log, pc, choice).Some?
    ensures var action := Program(cfg, log, pc, choice).value;
            && (action.Append? && action.next.Entering? ==>
                 (pc.Hooking? || pc.Resolved?) && action.next == Entering(pc.site, pc.prepared))
            && (action.Append? || action.Goto? ==> !action.next.Executing? && !action.next.Recording?)
            && (action.Goto? ==> !action.next.Entering?)
            && (action.Goto? && Quiet(pc) ==> Quiet(action.next))
  {
  }

  lemma EnteringIsUntried(th: Thread, choice: Choice)
    requires Inv(th) && Program(th.config, th.log, th.pc, choice).Some? && (th.pc.Hooking? || th.pc.Resolved?)
    ensures EntriesAt(Entering(th.pc.site, th.pc.prepared), th.entries, th.config)
  {
    ReadyIsUntried(th, th.pc.prepared.callId);
  }

  lemma AppendWork(th: Thread, choice: Choice, fate: Fate)
    requires Inv(th) && Enabled(th, Work(choice, fate)) && Program(th.config, th.log, th.pc, choice).value.Append?
    ensures var action := Program(th.config, th.log, th.pc, choice).value;
            Inv(AppendTo(th, action.record, action.next, fate))
  {
    var action := Program(th.config, th.log, th.pc, choice).value;
    if th.landed != [] {
      RefusedKeepsInv(th, action.record, action.next, fate);
    } else {
      EveryActionFits(th.config, th.log, th.pc, choice);
      WhereActionsLead(th.config, th.log, th.pc, choice);
      EveryAppendIsTruthful(th, choice);
      if action.next.Entering? {
        EnteringIsUntried(th, choice);
      }
      AppendKeepsInv(th, action.record, action.next, fate);
    }
  }

  lemma GotoKeepsInv(th: Thread, next: Pc)
    requires Inv(th) && (th.landed != [] ==> Quiet(next))
    requires PcFits(next, th.log, Read(th.log).value, th.config) && EntriesAt(next, th.entries, th.config)
    ensures Inv(th.(pc := next))
  {
  }

  lemma GotoWork(th: Thread, choice: Choice)
    requires Inv(th) && Enabled(th, Work(choice, Stored)) && Program(th.config, th.log, th.pc, choice).value.Goto?
    ensures Inv(th.(pc := Program(th.config, th.log, th.pc, choice).value.next))
  {
    EveryActionFits(th.config, th.log, th.pc, choice);
    WhereActionsLead(th.config, th.log, th.pc, choice);
    GotoKeepsInv(th, Program(th.config, th.log, th.pc, choice).value.next);
  }

  lemma CallingExecutor(th: Thread, choice: Choice)
    requires Program(th.config, th.log, th.pc, choice).Some?
    ensures var action := Program(th.config, th.log, th.pc, choice).value;
            && (action.Enter? ==>
                 th.pc.Entering?
                     && action == Enter(th.pc.site.vars.turn, th.pc.prepared, Executing(th.pc.site, th.pc.prepared)))
            && (action.Return? ==>
                 th.pc.Executing? && action.next == Recording(th.pc.site, th.pc.prepared, action.result))
  {
  }

  lemma EnterWork(th: Thread, action: Action, fate: Fate)
    requires Inv(th) && th.pc.Entering?
    requires action == Enter(th.pc.site.vars.turn, th.pc.prepared, Executing(th.pc.site, th.pc.prepared))
    ensures Inv(Perform(th, action, fate))
  {
    EnteringStep(th);
  }

  lemma ReturnWork(th: Thread, action: Action, fate: Fate)
    requires Inv(th) && th.pc.Executing? && action.Return?
    requires action.next == Recording(th.pc.site, th.pc.prepared, action.result)
    ensures Inv(Perform(th, action, fate))
  {
    ExecutingStep(th, action.result);
  }

  lemma WorkKeepsInv(th: Thread, choice: Choice, fate: Fate)
    requires Inv(th) && Enabled(th, Work(choice, fate))
    ensures Inv(Perform(th, Program(th.config, th.log, th.pc, choice).value, fate))
  {
    var action := Program(th.config, th.log, th.pc, choice).value;
    CallingExecutor(th, choice);
    match action {
      case Append(_, _) => AppendWork(th, choice, fate);
      case Goto(_) => GotoWork(th, choice);
      case Enter(_, _, _) => EnterWork(th, action, fate);
      case Return(_, _) => ReturnWork(th, action, fate);
    }
  }

  /** Every step keeps the invariant: the holder's own, a dropped future, a failed append
      of this or another thread, and a restart at any point. */
  lemma StepKeepsInv(th: Thread, step: Step)
    requires Inv(th) && Enabled(th, step)
    ensures Inv(Next(th, step))
  {
    match step {
      case Create(fate) =>
        NotReceiptIsTruthful(Record(None, ThreadStarted), th.entries);
        AppendKeepsInv(th, Record(None, ThreadStarted), Free, fate);
      case Take(goal) => CreatedIsRecorded(th.log);
      case Work(choice, fate) => WorkKeepsInv(th, choice, fate);
      case Drop =>
      case Latch =>
      case Restart(config) => RestartKeepsInv(th, config);
    }
  }

  lemma RestartKeepsInv(th: Thread, config: Config)
    requires Inv(th)
    ensures Inv(Next(th, Restart(config)))
  {
    var th' := Next(th, Restart(config));
    assert th'.Durable() == th.Durable();
    forall i | 0 <= i < |th.entries| ensures EntryFits(th'.log, th'.Durable(), th'.entries[i]) {
      assert EntryFits(th.log, th.Durable(), th.entries[i]);
    }
  }
}
