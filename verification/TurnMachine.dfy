/** One thread of the runtime as a machine: where the activity that holds the thread
    is in the code, what its environment answers, and what each step does to the log.
    A step appends at most one event, so every crash point lies between two steps. */
module TurnMachine {
  import opened Wrappers
  import opened Ids
  import opened Protocol
  import opened Policy
  import opened Journal
  import opened Recovery

  /** What a runtime is built with. */
  datatype Config = Config(
    tools: set<string>, policy: CapabilityPolicy, parent: Option<Projection>, maxIterations: nat)
  {
    function Capabilities(): Projection {
      Project(tools, policy, parent)
    }
  }

  /** The turn's own variables: `transcript` and `seen` are kept up to date by the loop. */
  datatype Vars = Vars(turn: TurnId, iteration: nat, transcript: seq<Message>, seen: set<CallId>)

  /** A position in the loop over one response's calls. */
  datatype Site = Site(vars: Vars, calls: seq<ToolCall>, index: nat) {
    predicate Valid() { index < |calls| }
    function Call(): ToolCall requires Valid() { calls[index] }
    function After(receipt: ToolReceipt): Site {
      Site(vars.(transcript := vars.transcript + [Tool(receipt)]), calls, index + 1)
    }
  }

  datatype Goal = JustRecover | RunTurn(turn: TurnId, input: string)

  datatype ExecResult = ExecOk(output: Value) | ExecUnknown(reason: Reason) | ExecError(reason: Reason)

  function ReceiptOf(p: PreparedToolCall, result: ExecResult): ToolReceipt {
    match result
    case ExecOk(output) => SucceededReceipt(p, output)
    case ExecUnknown(reason) => UnknownReceipt(p, reason)
    case ExecError(reason) => FailedReceipt(p, reason)
  }

  /** Where the activity holding the thread is. */
  datatype Pc =
    | Free                                                        // nobody holds the thread
    | Checking(goal: Goal)                                        // the guard was just taken
    | Recovering(todo: seq<Record>, goal: Goal, recorded: nat)
    | Starting(turn: TurnId, input: string)                       // before TurnStarted
    | Greeting(turn: TurnId, input: string)                       // before UserMessage
    | Head(vars: Vars)                                            // top of the model loop
    | Requesting(vars: Vars)                                      // before ModelRequestStarted
    | AwaitingModel(vars: Vars)
    | Deciding(vars: Vars, response: ModelResponse)               // AssistantMessage is durable
    | Calling(site: Site)                                         // top of the loop over calls
    | Hooking(site: Site, prepared: PreparedToolCall)             // ToolPrepared is durable
    | Denying(site: Site, receipt: ToolReceipt)                   // a before_tool hook refused
    | AwaitingApproval(site: Site, prepared: PreparedToolCall)
    | Resolved(site: Site, prepared: PreparedToolCall, decision: Decision)
    | Entering(site: Site, prepared: PreparedToolCall)            // ToolExecutionStarted is durable
    | Executing(site: Site, prepared: PreparedToolCall)
    | Recording(site: Site, prepared: PreparedToolCall, result: ExecResult)
    | Settled(site: Site, receipt: ToolReceipt)                   // before the after_tool hooks
    | Closing(turn: TurnId, ends: seq<Event>)                     // appends that end the turn
  {
    predicate Awaits() {
      AwaitingModel? || AwaitingApproval? || Executing?
    }
  }

  /** What the environment answers where the code asks it something. */
  datatype Choice =
    | Proceed
    | Cancelled
    | CompileFails(error: Reason)
    | Compiles(messageCount: nat)
    | HookFails(error: Reason)
    | ModelFails(error: Reason, cancelled: bool)
    | ModelReplies(response: ModelResponse)
    | PrepareFails(error: Reason)
    | Prepares(prepared: PreparedToolCall)
    | Approver(decision: Decision)
    | Executor(result: ExecResult)

  datatype Action =
    | Append(record: Record, next: Pc)
    | Goto(next: Pc)
    | Enter(turn: TurnId, prepared: PreparedToolCall, next: Pc)     // the executor is called
    | Return(result: ExecResult, next: Pc)            // the executor has answered

  predicate UsesTurn(log: seq<Record>, turn: TurnId) {
    exists i :: 0 <= i < |log| && log[i].turn == Some(turn)
  }

  predicate HasThread(log: seq<Record>) {
    exists i :: 0 <= i < |log| && log[i].event.ThreadStarted?
  }

  /** Receipts for calls the turn will not prepare any more. */
  function DeniedEvents(calls: seq<ToolCall>, reason: Reason): seq<Event> {
    if calls == [] then [] else
      [ToolReceiptRecorded(DeniedReceipt(calls[0], None, reason))] + DeniedEvents(calls[1..], reason)
  }

  /** Why a response is not acted on, if it is not. */
  function StopError(m: ModelResponse): Option<Reason> {
    if m.stop == MaxTokens || m.stop == Other then Some(IncompleteResponse(m.stop))
    else if m.stop == ToolUse && m.calls == [] then Some(ToolUseWithoutCalls)
    else if m.stop == EndTurn && m.calls != [] then Some(EndTurnWithCalls)
    else None
  }

  function DenialReason(p: PreparedToolCall, decision: Decision): Option<Reason> {
    match decision
    case Approved(action) => if action == p.action then None else Some(ApprovalMismatch)
    case Refused(reason) => Some(reason)
  }

  function By(v: Vars, event: Event): Record {
    Record(Some(v.turn), event)
  }

  /** Records a receipt of a call whose execution was not started, and moves on. */
  function Settle(site: Site, receipt: ToolReceipt): Action {
    Append(By(site.vars, ToolReceiptRecorded(receipt)), Calling(site.After(receipt)))
  }

  /** The code at each position, given the environment's answer; None when it asks
      something else there. `log` is what loading the thread returns. */
  function Program(cfg: Config, log: seq<Record>, pc: Pc, choice: Choice): Option<Action> {
    match pc
    case Free => None
    case Checking(goal) =>
      if goal.RunTurn? && UsesTurn(log, goal.turn) then Some(Goto(Free))
      else Some(Goto(Recovering(Plan(log), goal, 0)))
    case Recovering(todo, goal, n) =>
      if todo != [] then Some(Append(todo[0], Recovering(todo[1..], goal, n + 1)))
      else if goal.RunTurn? then Some(Goto(Starting(goal.turn, goal.input)))
      else Some(Goto(Free))
    case Starting(turn, input) =>
      Some(Append(Record(Some(turn), TurnStarted), Greeting(turn, input)))
    case Greeting(turn, input) =>
      var record := Record(Some(turn), UserMessage(input));
      Some(Append(record, Head(Vars(turn, 0, Transcript(log + [record]), {}))))
    case Head(v) => AtHead(cfg, v, choice)
    case Requesting(v) => Some(Append(By(v, ModelRequestStarted(v.iteration)), AwaitingModel(v)))
    case AwaitingModel(v) => AtModel(v, choice)
    case Deciding(v, m) => AtDecision(v, m, choice)
    case Calling(site) => if site.index < |site.calls| then AtCall(cfg, site, choice)
                          else Some(Goto(Head(site.vars.(iteration := site.vars.iteration + 1))))
    case Hooking(site, p) => if site.Valid() then AtHook(cfg, site, p, choice) else None
    case Denying(site, receipt) => Some(Settle(site, receipt))
    case AwaitingApproval(site, p) =>
      if !choice.Approver? then None else
        Some(Append(By(site.vars, ApprovalResolved(p.callId, choice.decision)), Resolved(site, p, choice.decision)))
    case Resolved(site, p, decision) =>
      if !site.Valid() then None else
      var denial := DenialReason(p, decision);
      if denial.Some? then Some(Settle(site, DeniedReceipt(site.Call(), Some(p.action), denial.value)))
      else Some(Append(By(site.vars, ToolExecutionStarted(p)), Entering(site, p)))
    case Entering(site, p) => Some(Enter(site.vars.turn, p, Executing(site, p)))
    case Executing(site, p) =>
      if choice.Executor? then Some(Return(choice.result, Recording(site, p, choice.result))) else None
    case Recording(site, p, result) =>
      var receipt := ReceiptOf(p, result);
      Some(Append(By(site.vars, ToolReceiptRecorded(receipt)), Settled(site, receipt)))
    case Settled(site, receipt) =>
      if choice.HookFails? then
        Some(Goto(Closing(site.vars.turn, [HookFailed(AfterTool, choice.error), TurnFailed(choice.error)])))
      else if choice.Proceed? then Some(Goto(Calling(site.After(receipt)))) else None
    case Closing(turn, ends) =>
      if ends == [] then Some(Goto(Free))
      else Some(Append(Record(Some(turn), ends[0]), Closing(turn, ends[1..])))
  }

  function AtHead(cfg: Config, v: Vars, choice: Choice): Option<Action> {
    if v.iteration >= cfg.maxIterations then
      Some(Goto(Closing(v.turn, [TurnFailed(TooManyIterations(cfg.maxIterations))])))
    else match choice
    case Cancelled => Some(Goto(Closing(v.turn, [TurnCancelled])))
    case CompileFails(error) => Some(Goto(Closing(v.turn, [TurnFailed(error)])))
    case HookFails(error) => Some(Goto(Closing(v.turn, [HookFailed(BeforeModel, error), TurnFailed(error)])))
    case Compiles(n) =>
      Some(Append(By(v, ContextCompiled(v.iteration, n, cfg.Capabilities().Visible())), Requesting(v)))
    case _ => None
  }

  function AtModel(v: Vars, choice: Choice): Option<Action> {
    match choice
    case ModelFails(error, cancelled) =>
      Some(Goto(Closing(v.turn, if cancelled then [TurnCancelled] else [TurnFailed(error)])))
    case ModelReplies(m) =>
      var error := CallsError(m.calls, v.seen);
      if error.Some? then Some(Goto(Closing(v.turn, [TurnFailed(error.value)]))) else
      Some(Append(By(v, AssistantMessage(m)), Deciding(
        v.(transcript := v.transcript + [Assistant(m.content, m.calls)], seen := v.seen + CallIds(m.calls)), m)))
    case _ => None
  }

  function AtDecision(v: Vars, m: ModelResponse, choice: Choice): Option<Action> {
    var stop := StopError(m);
    if stop.Some? then Some(Goto(Closing(v.turn, DeniedEvents(m.calls, stop.value) + [TurnFailed(stop.value)])))
    else if choice.Cancelled? then
      Some(Goto(Closing(v.turn, DeniedEvents(m.calls, CancelledBeforePreparation) + [TurnCancelled])))
    else if !choice.Proceed? then None
    else if m.calls == [] then Some(Append(By(v, TurnCompleted(m.content)), Free))
    else Some(Goto(Calling(Site(v, m.calls, 0))))
  }

  function AtCall(cfg: Config, site: Site, choice: Choice): Option<Action>
    requires site.Valid()
  {
    var call := site.Call();
    if choice.Cancelled? then
      Some(Goto(Closing(site.vars.turn,
        DeniedEvents(site.calls[site.index..], CancelledBeforePreparation) + [TurnCancelled])))
    else if call.name !in cfg.tools then
      if choice.Proceed? then Some(Settle(site, DeniedReceipt(call, None, NotRegistered))) else None
    else if cfg.Capabilities().Grant(call.name) == Deny then
      if choice.Proceed? then Some(Settle(site, DeniedReceipt(call, None, DeniedByProjection))) else None
    else match choice
    case PrepareFails(error) => Some(Settle(site, MalformedReceipt(call, error)))
    case Prepares(p) =>
      if p.callId != call.id || p.action.toolName != call.name then
        Some(Settle(site, MalformedReceipt(call, PreparationChangedCall)))
      else Some(Append(By(site.vars, ToolPrepared(p)), Hooking(site, p)))
    case _ => None
  }

  function AtHook(cfg: Config, site: Site, p: PreparedToolCall, choice: Choice): Option<Action>
    requires site.Valid()
  {
    var call := site.Call();
    if choice.HookFails? then
      Some(Append(By(site.vars, HookFailed(BeforeTool, choice.error)),
        Denying(site, DeniedReceipt(call, Some(p.action), choice.error))))
    else if !choice.Proceed? then None
    else if cfg.Capabilities().Grant(call.name) == Ask then
      Some(Append(By(site.vars, ApprovalRequested(call.id, p.action)), AwaitingApproval(site, p)))
    else Some(Append(By(site.vars, ToolExecutionStarted(p)), Entering(site, p)))
  }

  // ---- The thread and its steps ----

  /** One call of the executor, under the configuration of that moment. */
  datatype Entry = Entry(turn: TurnId, prepared: PreparedToolCall, config: Config, result: Option<ExecResult>) {
    function Key(): Key { Ids.Key(turn, prepared.callId) }
  }

  /** `log` is what loading returns; `landed` is durable but will only be seen once the
      store is opened again; `entries` is the history of executor calls. */
  datatype Thread = Thread(
    log: seq<Record>, landed: seq<Record>, latched: bool, pc: Pc, entries: seq<Entry>, config: Config)
  {
    function Durable(): seq<Record> { log + landed }
  }

  datatype Step =
    | Create(fate: Fate)                       // a thread with a new id is started
    | Take(goal: Goal)                         // someone acquires the thread
    | Work(choice: Choice, fate: Fate)         // the holder runs to its next append, call or answer
    | Drop                                     // the holder's future is dropped while it waits
    | Latch                                    // an append of another thread fails
    | Restart(config: Config)                  // the process stops anywhere; the store is opened again

  /** A failed append ends the activity wherever it is. */
  function AppendTo(th: Thread, r: Record, next: Pc, fate: Fate): Thread {
    if th.latched then th.(pc := Free) else
    match fate
    case Stored => th.(log := th.log + [r], pc := next)
    case NotTried => th.(pc := Free)
    case Lost => th.(latched := true, pc := Free)
    case Landed => th.(latched := true, landed := [r], pc := Free)
  }

  function Perform(th: Thread, action: Action, fate: Fate): Thread {
    match action
    case Append(r, next) => AppendTo(th, r, next, fate)
    case Goto(next) => th.(pc := next)
    case Enter(turn, p, next) =>
      th.(entries := th.entries + [Entry(turn, p, th.config, None)], pc := next)
    case Return(result, next) =>
      if th.entries == [] then th.(pc := next) else
      var n := |th.entries| - 1;
      th.(entries := th.entries[n := th.entries[n].(result := Some(result))], pc := next)
  }

  predicate Enabled(th: Thread, step: Step) {
    match step
    case Create(_) => th.log == [] && th.landed == [] && th.pc == Free
    case Take(_) => th.pc == Free && HasThread(th.log)
    case Work(choice, _) => Program(th.config, th.log, th.pc, choice).Some?
    case Drop => th.pc.Awaits()
    case Latch => true
    case Restart(_) => true
  }

  function Next(th: Thread, step: Step): Thread
    requires Enabled(th, step)
  {
    match step
    case Create(fate) => AppendTo(th, Record(None, ThreadStarted), Free, fate)
    case Take(goal) => th.(pc := Checking(goal))
    case Work(choice, fate) => Perform(th, Program(th.config, th.log, th.pc, choice).value, fate)
    case Drop => th.(pc := Free)
    case Latch => th.(latched := true)
    case Restart(config) => Thread(th.log + th.landed, [], false, Free, th.entries, config)
  }

  function Initial(config: Config): Thread {
    Thread([], [], false, Free, [], config)
  }

  /** The steps of one activity: it takes the thread for its goal, runs the code at every
      position it comes to, and may be dropped while it waits. */
  predicate OneActivity(goal: Goal, steps: seq<Step>) {
    && steps != [] && steps[0] == Take(goal)
    && forall i :: 0 < i < |steps| ==> steps[i].Work? || steps[i].Drop?
  }

  lemma ActivityGrows(goal: Goal, steps: seq<Step>, step: Step)
    requires OneActivity(goal, steps) && (step.Work? || step.Drop?)
    ensures OneActivity(goal, steps + [step])
  {
  }

  ghost predicate Follows(a: Thread, b: Thread) {
    exists step :: Enabled(a, step) && b == Next(a, step)
  }
}
