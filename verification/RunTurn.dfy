/** What one activity on a thread is, and what is said of the state it leaves. */
module Activities {
  import opened Wrappers
  import opened Ids
  import opened Protocol
  import opened Policy
  import opened Journal
  import opened Sequences
  import opened LogGrammar
  import opened Recovery
  import opened TurnMachine
  import opened TurnSafety
  import opened TurnSteps
  import opened RecoveredLogs
  import opened RuntimeSafety

  /** The turn's variables once the model has answered. */
  function Replied(v: Vars, m: ModelResponse): Vars {
    v.(transcript := v.transcript + [Assistant(m.content, m.calls)], seen := v.seen + CallIds(m.calls))
  }

  /** Where a list of steps leads, if each was enabled. */
  function Performed(start: Thread, steps: seq<Step>): Option<Thread> {
    if steps == [] then Some(start) else
      var before, last := Performed(start, steps[..|steps| - 1]), steps[|steps| - 1];
      if before.Some? && Enabled(before.value, last) then Some(Next(before.value, last)) else None
  }

  lemma PerformedGrows(start: Thread, steps: seq<Step>, step: Step)
    requires Performed(start, steps).Some? && Enabled(Performed(start, steps).value, step)
    ensures Performed(start, steps + [step]) == Some(Next(Performed(start, steps).value, step))
  {
    assert (steps + [step])[..|steps + [step]| - 1] == steps;
  }

  lemma TakenUp(start: Thread, goal: Goal)
    requires start.pc == Free && HasThread(start.log)
    ensures OneActivity(goal, [Take(goal)])
    ensures Performed(start, [Take(goal)]) == Some(start.(pc := Checking(goal)))
  {
    var none: seq<Step> := [];
    assert Performed(start, none) == Some(start);
    assert Enabled(start, Take(goal)) && Next(start, Take(goal)) == start.(pc := Checking(goal));
    assert none + [Take(goal)] == [Take(goal)];
    PerformedGrows(start, none, Take(goal));
  }

  lemma {:induction false} PerformedKeepsInv(start: Thread, steps: seq<Step>)
    requires Inv(start) && Performed(start, steps).Some?
    ensures Inv(Performed(start, steps).value)
  {
    if steps != [] {
      PerformedKeepsInv(start, steps[..|steps| - 1]);
      StepKeepsInv(Performed(start, steps[..|steps| - 1]).value, steps[|steps| - 1]);
    }
  }

  ghost predicate OthersKept(before: Store, after: Store, thread: ThreadId) {
    forall t :: t != thread ==> RecordsOf(after.events, t) == RecordsOf(before.events, t)
  }

  function ReceiptsIn(records: seq<Record>): seq<ToolReceipt> {
    if records == [] then [] else
      var last := records[|records| - 1];
      ReceiptsIn(records[..|records| - 1]) + if last.event.ToolReceiptRecorded? then [last.event.receipt] else []
  }

  function EndsIn(records: seq<Record>): seq<TurnId> {
    if records == [] then [] else
      var last := records[|records| - 1];
      EndsIn(records[..|records| - 1]) + if last.event.TurnFailed? && last.turn.Some? then [last.turn.value] else []
  }

  lemma ReportAppend(records: seq<Record>, r: Record)
    ensures ReceiptsIn(records + [r])
        == ReceiptsIn(records) + (if r.event.ToolReceiptRecorded? then [r.event.receipt] else [])
    ensures EndsIn(records + [r])
        == EndsIn(records) + (if r.event.TurnFailed? && r.turn.Some? then [r.turn.value] else [])
  {
    assert (records + [r])[..|records + [r]| - 1] == records;
  }

  /** How far recovery has come: `done` is in the log and reported, `todo` is not. */
  ghost predicate Recovered(now: Thread,
    log: seq<Record>, done: seq<Record>, todo: seq<Record>, goal: Goal, receipts: seq<ToolReceipt>, failed: seq<TurnId>)
  {
    && now.log == log + done && now.pc == Recovering(todo, goal, |done|)
    && receipts == ReceiptsIn(done) && failed == EndsIn(done)
  }

  // ---- How an activity ends ----

  /** What a last step says of the end: an append was refused, or the one of a receipt after
      the executor had answered; the future was dropped; or none of this. */
  datatype End = Going | Unstored | ReceiptLost(prepared: PreparedToolCall) | Abandoned

  function UnstoredAt(pc: Pc): End {
    if pc.Recording? then ReceiptLost(pc.prepared) else Unstored
  }

  function EndAfter(before: Thread, step: Step): End {
    match step
    case Drop => Abandoned
    case Work(choice, fate) =>
      var action := Program(before.config, before.log, before.pc, choice);
      if action.Some? && action.value.Append? && (before.latched || fate != Stored) then UnstoredAt(before.pc)
          else Going
    case _ => Going
  }

  function EndOf(start: Thread, steps: seq<Step>): End {
    if steps == [] || Performed(start, steps[..|steps| - 1]).None? then Going
    else EndAfter(Performed(start, steps[..|steps| - 1]).value, steps[|steps| - 1])
  }

  lemma EndGrows(start: Thread, steps: seq<Step>, step: Step)
    requires Performed(start, steps).Some?
    ensures EndOf(start, steps + [step]) == EndAfter(Performed(start, steps).value, step)
  {
    assert (steps + [step])[..|steps + [step]| - 1] == steps;
  }

  predicate LastAnswered(entries: seq<Entry>, p: PreparedToolCall) {
    entries != [] && entries[|entries| - 1].prepared == p && entries[|entries| - 1].result.Some?
  }

  lemma InvPlacesEntries(th: Thread)
    requires Inv(th)
    ensures EntriesAt(th.pc, th.entries, th.config)
  {
  }

  lemma LostAtRecording(before: Thread, step: Step, p: PreparedToolCall)
    requires EndAfter(before, step) == ReceiptLost(p)
    ensures before.pc.Recording? && before.pc.prepared == p && step.Work?
  {
  }

  lemma RefusedKeepsEntries(site: Site, p: PreparedToolCall, result: ExecResult, before: Thread, choice: Choice, fate: Fate)
    requires before.pc == Recording(site, p, result) && Enabled(before, Work(choice, fate))
    ensures Next(before, Work(choice, fate)).entries == before.entries
  {
  }

  /** A receipt is lost only after the executor answered the call it is for. */
  lemma LostReceiptsWereAnswered(start: Thread, steps: seq<Step>, p: PreparedToolCall)
    requires Inv(start) && Performed(start, steps).Some? && EndOf(start, steps) == ReceiptLost(p)
    ensures LastAnswered(Performed(start, steps).value.entries, p)
  {
    var init, last := steps[..|steps| - 1], steps[|steps| - 1];
    var before := Performed(start, init).value;
    PerformedKeepsInv(start, init);
    InvPlacesEntries(before);
    LostAtRecording(before, last, p);
    RefusedKeepsEntries(before.pc.site, p, before.pc.result, before, last.choice, last.fate);
  }

  datatype TurnError =
    | UnknownThread
    | ConcurrentTurn
    | DuplicateTurn
    | StoreFailed
    | ReceiptPersistenceUnknown(callId: CallId, toolName: string)
    | ContextError(reason: Reason)
    | ModelError(reason: Reason)
    | HookError(reason: Reason)
    | InvalidModelResponse(reason: Reason)
    | IncompleteModelResponse(stop: StopReason)
    | CancelledTurn
    | MaxModelIterations(maximum: nat)
    | FutureDropped

  /** The event with which a turn that fails with an error is ended. */
  predicate ClosedBy(e: TurnError, event: Event) {
    match e
    case ContextError(reason) => event == TurnFailed(reason)
    case ModelError(reason) => event == TurnFailed(reason)
    case HookError(reason) => event == TurnFailed(reason)
    case InvalidModelResponse(reason) => event == TurnFailed(reason)
    case IncompleteModelResponse(stop) => event == TurnFailed(IncompleteResponse(stop))
    case CancelledTurn => event == TurnCancelled
    case MaxModelIterations(maximum) => event == TurnFailed(TooManyIterations(maximum))
    case _ => false
  }

  predicate LastIs(log: seq<Record>, turn: TurnId, event: Event) {
    log != [] && log[|log| - 1] == Record(Some(turn), event)
  }

  /** An error tells how the activity ended: exactly a refused append is a failure of the
      store, unless it was the receipt of an answered executor call, which exactly then is
      reported as one that may have had effects; any other error is the one the log's last
      event records, or the turn's id was used. */
  ghost predicate Tells(e: TurnError, end: End, log: seq<Record>, turn: TurnId) {
    match end
    case Abandoned => e == FutureDropped
    case Unstored => e == StoreFailed
    case ReceiptLost(p) => e == ReceiptPersistenceUnknown(p.callId, p.action.toolName)
    case Going => (e == DuplicateTurn && UsesTurn(log, turn))
                  || (exists event :: LastIs(log, turn, event) && ClosedBy(e, event))
  }

  lemma NoReceiptLost(e: TurnError, end: End, log: seq<Record>, turn: TurnId)
    requires Tells(e, end, log, turn) && !end.ReceiptLost?
    ensures !e.ReceiptPersistenceUnknown?
  {
  }

  /** The error for a response that is not acted on. */
  function RejectionOf(m: ModelResponse, stop: Reason): TurnError {
    if m.stop == MaxTokens || m.stop == Other then IncompleteModelResponse(m.stop) else InvalidModelResponse(stop)
  }

  /** A call that was prepared, or one that already has its receipt. */
  datatype Preparation = Usable(prepared: PreparedToolCall) | Receipted(receipt: ToolReceipt)

  /** The turn is over, or its loop goes on. */
  datatype Onward = Over(result: Result<string, TurnError>) | Again(transcript: seq<Message>)

  // ---- What observers are told ----

  /** How far notification is: nothing is told while recovery records, and once that is
      published everything the thread has recorded from `from` on is. */
  ghost predicate Heard(
    startLog: seq<Record>, plan: seq<Record>, log: seq<Record>, events: seq<Envelope>, thread: ThreadId, from: nat,
    told: seq<Envelope>, published: bool)
  {
    && from <= NextSequence(events) && startLog <= log
    && |EnvelopesOf(events, thread, from)| == |log| - |startLog|
    && told == (if published then EnvelopesOf(events, thread, from) else [])
    && (published ==> startLog + plan <= log)
  }

  /** Recovery of this thread has not got to the end of its plan, or there was none. */
  predicate Unrecovered(startLog: seq<Record>, plan: seq<Record>, log: seq<Record>) {
    log == startLog || !(startLog + plan <= log)
  }

  /** What observers were told by a whole activity: all that it recorded if it got past
      recovery, and nothing otherwise. */
  ghost predicate ToldAll(
    start: Thread, now: Thread, events: seq<Envelope>, thread: ThreadId, from: nat, told: seq<Envelope>)
  {
    told == if start.log + Plan(start.log) <= now.log then EnvelopesOf(events, thread, from) else []
  }

  type Ear = (seq<Record>, seq<Envelope>, seq<Envelope>, bool) -> bool

  /** This predicate as a value. */
  ghost predicate IsEar(ear: Ear, startLog: seq<Record>, plan: seq<Record>, thread: ThreadId, from: nat) {
    forall log, events, told, published {:trigger Heard(startLog, plan, log, events, thread, from, told, published)} ::
      ear(log, events, told, published) == Heard(startLog, plan, log, events, thread, from, told, published)
  }

  lemma HeardAtStart(ear: Ear, log: seq<Record>, plan: seq<Record>, events: seq<Envelope>, thread: ThreadId, from: nat)
    requires IsEar(ear, log, plan, thread, from)
    requires Ordered(events) && from == NextSequence(EnvelopesOf(events, thread, 0))
    ensures ear(log, events, [], false)
  {
    NothingBehind(events, thread, from);
    assert Heard(log, plan, log, events, thread, from, [], false);
  }

  lemma {:induction false} NothingBehind(events: seq<Envelope>, thread: ThreadId, from: nat)
    requires Ordered(events) && from >= NextSequence(EnvelopesOf(events, thread, 0))
    ensures EnvelopesOf(events, thread, from) == []
    ensures NextSequence(EnvelopesOf(events, thread, 0)) <= NextSequence(events)
  {
    if events != [] {
      var init, last := events[..|events| - 1], events[|events| - 1];
      if last.thread == thread {
        SelectedBelow(init, thread, from, last.sequence);
      } else {
        NothingBehind(init, thread, from);
        assert init != [] ==> init[|init| - 1].sequence <= last.sequence;
      }
    }
  }

  lemma {:induction false} SelectedBelow(events: seq<Envelope>, thread: ThreadId, from: nat, last: nat)
    requires from > last && forall i :: 0 <= i < |events| ==> events[i].sequence <= last
    ensures EnvelopesOf(events, thread, from) == []
  {
    if events != [] {
      SelectedBelow(events[..|events| - 1], thread, from, last);
    }
  }

  lemma HeardWrite(
    ear: Ear, startLog: seq<Record>, plan: seq<Record>, log: seq<Record>, store: Store, thread: ThreadId, from: nat,
    told: seq<Envelope>, published: bool, r: Record, fate: Fate)
    requires IsEar(ear, startLog, plan, thread, from) && ear(log, store.events, told, published)
    ensures var ok, e := Acknowledged(store, fate), Envelope(NextSequence(store.events), thread, r);
            ear(if ok then log + [r] else log, Write(store, thread, r, fate).events,
              if ok && published then told + [e] else told, published)
  {
    EnvelopesAppend(store.events, Envelope(NextSequence(store.events), thread, r), thread, from);
    var ok, e := Acknowledged(store, fate), Envelope(NextSequence(store.events), thread, r);
    assert Heard(startLog, plan, log, store.events, thread, from, told, published);
    assert Heard(startLog, plan, if ok then log + [r] else log, Write(store, thread, r, fate).events, thread, from,
      if ok && published then told + [e] else told, published);
  }

  lemma HeardPublished(
    ear: Ear, startLog: seq<Record>, plan: seq<Record>, log: seq<Record>, events: seq<Envelope>, thread: ThreadId,
    from: nat, told: seq<Envelope>, receipts: seq<ToolReceipt>, failed: seq<TurnId>)
    requires IsEar(ear, startLog, plan, thread, from) && ear(log, events, told, false) && log == startLog + plan
    requires plan == Plan(startLog) && receipts == ReceiptsIn(plan) && failed == EndsIn(plan)
    ensures ear(log, events, if receipts != [] || failed != [] then EnvelopesOf(events, thread, from) else told, true)
  {
    if receipts == [] && failed == [] && plan != [] {
      PlannedIsReported(startLog, plan[|plan| - 1]);
    }
    assert Heard(startLog, plan, log, events, thread, from, told, false);
    assert Heard(startLog, plan, log, events, thread, from,
      if receipts != [] || failed != [] then EnvelopesOf(events, thread, from) else told, true);
  }

  lemma HeardIsAll(
    ear: Ear, start: Thread, plan: seq<Record>, now: Thread, events: seq<Envelope>, thread: ThreadId, from: nat,
    told: seq<Envelope>, published: bool)
    requires IsEar(ear, start.log, plan, thread, from) && ear(now.log, events, told, published)
    requires plan == Plan(start.log) && (published || Unrecovered(start.log, plan, now.log))
    ensures ToldAll(start, now, events, thread, from, told)
  {
    assert Heard(start.log, plan, now.log, events, thread, from, told, published);
  }

  lemma PlannedIsReported(log: seq<Record>, r: Record)
    requires r in Plan(log)
    ensures r.event.ToolReceiptRecorded? || (r.event.TurnFailed? && r.turn.Some?)
  {
    PlannedKind(log, r);
    if r.event.TurnFailed? {
      PlannedEnd(FactsOf(log), r);
    }
  }

  lemma PlannedEnd(f: Facts, r: Record)
    requires r in PlanOf(f) && r.event.TurnFailed?
    ensures r.turn.Some?
  {
    if r in ReceiptRecords(f, SortedKeys(Outstanding(f))) {
      PlannedRecords(f, SortedKeys(Outstanding(f)), r);
    } else {
      EndsHaveTurns(SortedTurns(f.open), r);
    }
  }

  lemma {:induction false} EndsHaveTurns(turns: seq<TurnId>, r: Record)
    requires r in EndRecords(turns)
    ensures r.turn.Some?
  {
    if r != EndRecords(turns)[0] {
      EndsHaveTurns(turns[1..], r);
    }
  }

  // ---- Recovery ----

  lemma KeyTakenOut(keys: set<Key>, key: Key, completed: set<Key>)
    ensures (keys - {key}) - completed == if key in completed then keys - completed else (keys - completed) - {key}
  {
  }

  /** A recovery that stopped at a refused append, with an initial part of the plan done. */
  ghost predicate Stopped(now: Thread, end: End, log: seq<Record>, plan: seq<Record>) {
    now.pc == Free && end == Unstored && exists done :: done < plan && now.log == log + done
  }

  lemma StoppedIsUnrecovered(now: Thread, end: End, log: seq<Record>, plan: seq<Record>)
    requires Stopped(now, end, log, plan)
    ensures Unrecovered(log, plan, now.log)
  {
    var done :| done < plan && now.log == log + done;
    assert |now.log| < |log + plan|;
  }

  /** A finished recovery reports exactly what it appended; another stopped in its plan. */
  ghost predicate Reported(
    now: Thread, end: End, log: seq<Record>, ok: bool, receipts: seq<ToolReceipt>, failed: seq<TurnId>)
  {
    if ok then now.log == log + Plan(log) && receipts == ReceiptsIn(Plan(log)) && failed == EndsIn(Plan(log))
    else Stopped(now, end, log, Plan(log))
  }

  ghost predicate RecoveryTells(
    r: Result<(seq<ToolReceipt>, seq<TurnId>), TurnError>, now: Thread, end: End, log: seq<Record>)
  {
    match r
    case Ok((receipts, failed)) => Reported(now, end, log, true, receipts, failed)
    case Err(error) => error == StoreFailed && Stopped(now, end, log, Plan(log))
  }

  lemma RecoveryBegins(config: Config, log: seq<Record>)
    ensures Program(config, log, Checking(JustRecover), Proceed) == Some(Goto(Recovering(Plan(log), JustRecover, 0)))
  {
  }

  lemma RecoveryEnds(config: Config, now: Thread, log: seq<Record>, receipts: seq<ToolReceipt>, failed: seq<TurnId>)
    requires Recovered(now, log, Plan(log), [], JustRecover, receipts, failed)
    ensures Program(config, now.log, now.pc, Proceed) == Some(Goto(Free))
    ensures Reported(now.(pc := Free), Going, log, true, receipts, failed)
  {
  }

  /** The turn's last event says it is complete. */
  ghost predicate CompletedBy(now: Thread, turn: TurnId, content: string) {
    LastIs(now.log, turn, TurnCompleted(content))
  }

  // ---- Single steps ----

  /** Where one activity's steps have led it, and how the last one ended it if it did. */
  ghost predicate Led(start: Thread, goal: Goal, steps: seq<Step>, now: Thread, end: End) {
    OneActivity(goal, steps) && Performed(start, steps) == Some(now) && end == EndOf(start, steps)
  }

  type Way = (seq<Step>, Thread, End) -> bool

  /** This predicate as a value, which the code carries along without looking into it. */
  ghost predicate IsWay(way: Way, start: Thread, goal: Goal) {
    forall steps, now, end {:trigger Led(start, goal, steps, now, end)} ::
      way(steps, now, end) == Led(start, goal, steps, now, end)
  }

  lemma WayBegins(way: Way, start: Thread, goal: Goal)
    requires IsWay(way, start, goal) && start.pc == Free && HasThread(start.log)
    ensures way([Take(goal)], start.(pc := Checking(goal)), Going)
  {
    TakenUp(start, goal);
    assert Led(start, goal, [Take(goal)], start.(pc := Checking(goal)), Going);
  }

  lemma WayGoesOn(way: Way, start: Thread, goal: Goal, steps: seq<Step>, now: Thread, end: End, step: Step)
    requires IsWay(way, start, goal) && way(steps, now, end) && (step.Work? || step.Drop?) && Enabled(now, step)
    ensures way(steps + [step], Next(now, step), EndAfter(now, step))
  {
    assert Led(start, goal, steps, now, end);
    PerformedGrows(start, steps, step);
    ActivityGrows(goal, steps, step);
    EndGrows(start, steps, step);
    assert Led(start, goal, steps + [step], Next(now, step), EndAfter(now, step));
  }

  /** An append is a step of the activity, whatever becomes of it. */
  lemma AppendTaken(
    way: Way, start: Thread, goal: Goal, steps: seq<Step>, now: Thread, end: End, choice: Choice, fate: Fate, r: Record,
    next: Pc)
    requires IsWay(way, start, goal) && way(steps, now, end)
    requires Program(now.config, now.log, now.pc, choice) == Some(Action.Append(r, next))
    ensures way(steps + [Work(choice, fate)], AppendTo(now, r, next, fate),
              if now.latched || fate != Stored then UnstoredAt(now.pc) else Going)
  {
    WayGoesOn(way, start, goal, steps, now, end, Work(choice, fate));
  }

  lemma JumpTaken(
    way: Way, start: Thread, goal: Goal, steps: seq<Step>, now: Thread, end: End, choice: Choice, next: Pc)
    requires IsWay(way, start, goal) && way(steps, now, end)
    requires Program(now.config, now.log, now.pc, choice) == Some(Goto(next))
    ensures way(steps + [Work(choice, Stored)], now.(pc := next), Going)
  {
    WayGoesOn(way, start, goal, steps, now, end, Work(choice, Stored));
  }

  lemma CrossTaken(
    way: Way, start: Thread, goal: Goal, steps: seq<Step>, now: Thread, end: End, choice: Choice, action: Action)
    requires IsWay(way, start, goal) && way(steps, now, end) && (action.Enter? || action.Return?)
    requires Program(now.config, now.log, now.pc, choice) == Some(action)
    ensures way(steps + [Work(choice, Stored)], Perform(now, action, Stored), Going)
  {
    WayGoesOn(way, start, goal, steps, now, end, Work(choice, Stored));
  }

  lemma DropTaken(way: Way, start: Thread, goal: Goal, steps: seq<Step>, now: Thread, end: End)
    requires IsWay(way, start, goal) && way(steps, now, end) && now.pc.Awaits()
    ensures way(steps + [Step.Drop], now.(pc := Free), Abandoned)
  {
    WayGoesOn(way, start, goal, steps, now, end, Step.Drop);
  }

  lemma WayLed(way: Way, start: Thread, goal: Goal, steps: seq<Step>, now: Thread, end: End)
    requires IsWay(way, start, goal) && way(steps, now, end)
    ensures OneActivity(goal, steps) && Performed(start, steps) == Some(now) && end == EndOf(start, steps)
    ensures Inv(start) ==> Inv(now)
  {
    assert Led(start, goal, steps, now, end);
    if Inv(start) {
      PerformedKeepsInv(start, steps);
    }
  }

  lemma ShowsWrite(now: Thread, config: Config, thread: ThreadId, store: Store, r: Record, next: Pc, fate: Fate)
    requires Shows(now, config, thread, store)
    ensures Shows(AppendTo(now, r, next, fate), config, thread, Write(store, thread, r, fate))
    ensures OthersKept(store, Write(store, thread, r, fate), thread)
  {
    forall t ensures t != thread ==> RecordsOf(Write(store, thread, r, fate).events, t) == RecordsOf(store.events, t) {
      WriteFrame(store, thread, r, fate, t);
    }
    WriteFrame(store, thread, r, fate, thread);
  }

  lemma ExecutorIsCalled(config: Config, log: seq<Record>, site: Site, p: PreparedToolCall)
    ensures Program(config, log, Entering(site, p), Proceed) == Some(Enter(site.vars.turn, p, Executing(site, p)))
  {
  }

  lemma ExecutorAnswers(config: Config, log: seq<Record>, site: Site, p: PreparedToolCall, result: ExecResult)
    ensures Program(config, log, Executing(site, p), Executor(result))
        == Some(Return(result, Recording(site, p, result)))
  {
  }

  lemma IterationsRunOut(config: Config, log: seq<Record>, v: Vars)
    requires v.iteration == config.maxIterations
    ensures Program(config, log, Head(v), Proceed)
        == Some(Goto(Closing(v.turn, [TurnFailed(TooManyIterations(config.maxIterations))])))
  {
  }

  lemma TurnFollowsRecovery(
    config: Config, now: Thread, log: seq<Record>, plan: seq<Record>, turn: TurnId, input: string,
    receipts: seq<ToolReceipt>, failed: seq<TurnId>)
    requires Recovered(now, log, plan, [], Goal.RunTurn(turn, input), receipts, failed)
    ensures Program(config, now.log, now.pc, Proceed) == Some(Goto(Starting(turn, input))) && now.log == log + plan
  {
  }

  lemma ApprovedStarts(config: Config, log: seq<Record>, site: Site, p: PreparedToolCall, decision: Decision)
    requires site.Valid() && DenialReason(p, decision).None?
    ensures Program(config, log, Resolved(site, p, decision), Proceed)
        == Some(Action.Append(By(site.vars, ToolExecutionStarted(p)), Entering(site, p)))
  {
  }

  lemma AllowedStarts(config: Config, log: seq<Record>, site: Site, p: PreparedToolCall)
    requires site.Valid() && config.Capabilities().Grant(site.Call().name) != Ask
    ensures Program(config, log, Hooking(site, p), Proceed)
        == Some(Action.Append(By(site.vars, ToolExecutionStarted(p)), Entering(site, p)))
  {
  }

  /** What a turn that is over may say. */
  ghost predicate Outcome(
    result: Result<string, TurnError>, now: Thread, end: End, turn: TurnId)
  {
    match result
    case Ok(content) => end == Going && CompletedBy(now, turn, content)
    case Err(error) => Tells(error, end, now.log, turn)
  }

  /** The thread is where one activity's steps have led it, and the store shows it so. */
  ghost predicate Mirrored(
    start: Thread, goal: Goal, steps: seq<Step>, now: Thread, config: Config, thread: ThreadId, store: Store)
  {
    && OneActivity(goal, steps) && Performed(start, steps) == Some(now)
    && Shows(now, config, thread, store)
  }

  /** What the machine knows of a thread is what the store holds. */
  ghost predicate Shows(now: Thread, config: Config, thread: ThreadId, store: Store) {
    && now.log == RecordsOf(store.events, thread)
    && now.landed == RecordsOf(store.landed, thread)
    && now.latched == store.latched && now.config == config
    && (store.landed != [] ==> store.latched)
  }
}

/** The runtime's own code for one turn and for recovery, loop for loop. Whatever the
    environment answers, everything it does is a run of the turn machine. */
module RunTurn {
  import opened Wrappers
  import opened Ids
  import opened Protocol
  import opened Policy
  import opened Journal
  import opened Sequences
  import opened LogGrammar
  import opened Recovery
  import opened TurnMachine
  import opened TurnSafety
  import opened TurnSteps
  import opened RuntimeSafety
  import opened Activities

  /** One holder of a thread at work on the store. The thread as the machine sees it is
      `now`, and `steps` is how the machine gets there from `start` in one activity; `told` is
      what observers were notified of. */
  class Activity {
    const store: EventStore
    const thread: ThreadId
    const config: Config
    const from: nat
    var told: seq<Envelope>
    ghost const start: Thread
    ghost const goal: Goal
    ghost const plan: seq<Record>
    ghost const way: Way
    ghost const ear: Ear
    ghost var now: Thread
    ghost var steps: seq<Step>
    ghost var end: End
    ghost var published: bool

    /** The guard of a thread that nobody else works on was just taken. */
    constructor (
      store: EventStore, thread: ThreadId, config: Config, from: nat, ghost start: Thread, ghost goal: Goal)
      requires Shows(start, config, thread, store.state) && start.pc == Free && HasThread(start.log)
      requires Ordered(store.state.events) && from == NextSequence(EnvelopesOf(store.state.events, thread, 0))
      ensures Mends() && now == start.(pc := Checking(goal))
      ensures this.store == store && this.thread == thread && this.config == config && this.from == from
      ensures this.start == start && this.goal == goal && plan == Plan(start.log)
    {
      this.store, this.thread, this.config, this.from := store, thread, config, from;
      this.start, this.goal, plan := start, goal, Plan(start.log);
      ghost var led: Way := (steps, now, end) => Led(start, goal, steps, now, end);
      ghost var heard: Ear := (log, events, told, published) =>
        Heard(start.log, Plan(start.log), log, events, thread, from, told, published);
      ear := heard;
      way, now, steps := led, start.(pc := Checking(goal)), [Take(goal)];
      told, end, published := [], Going, false;
      WayBegins(led, start, goal);
      HeardAtStart(heard, start.log, Plan(start.log), store.state.events, thread, from);
    }

    ghost predicate Mirrors()
      reads this, store
    {
      && IsWay(way, start, goal) && way(steps, now, end) && Shows(now, config, thread, store.state)
      && IsEar(ear, start.log, plan, thread, from) && ear(now.log, store.state.events, told, published)
    }

    /** While it recovers the thread nothing is told. */
    ghost predicate Mends()
      reads this, store
    {
      Mirrors() && !published
    }

    ghost predicate Works()
      reads this, store
    {
      Mirrors() && published
    }

    /** Moves on without touching the log. */
    ghost method Jump(choice: Choice, next: Pc)
      requires Mirrors() && Program(config, now.log, now.pc, choice) == Some(Goto(next))
      modifies this`steps, this`now, this`end
      ensures Mirrors() && now == old(now).(pc := next) && end == Going
    {
      JumpTaken(way, start, goal, steps, now, end, choice, next);
      steps, now, end := steps + [Work(choice, Stored)], now.(pc := next), Going;
    }

    /** The executor is called, or answers. */
    ghost method Cross(choice: Choice, action: Action)
      requires Mirrors() && Program(config, now.log, now.pc, choice) == Some(action)
          && (action.Enter? || action.Return?)
      modifies this`steps, this`now, this`end
      ensures Mirrors() && now.log == old(now.log) && now.pc == action.next && end == Going
    {
      CrossTaken(way, start, goal, steps, now, end, choice, action);
      steps, now, end := steps + [Work(choice, Stored)], Perform(now, action, Stored), Going;
    }

    /** The future is dropped where it waits. */
    ghost method Drop()
      requires Mirrors() && now.pc.Awaits()
      modifies this`steps, this`now, this`end
      ensures Mirrors() && now == old(now).(pc := Free) && end == Abandoned
    {
      DropTaken(way, start, goal, steps, now, end);
      steps, now, end := steps + [Step.Drop], now.(pc := Free), Abandoned;
    }

    /** Appends to the store without telling anybody. */
    method AppendQuietly(r: Record, ghost choice: Choice, ghost next: Pc) returns (stored: Option<Envelope>)
      requires Mirrors() && Program(config, now.log, now.pc, choice) == Some(Action.Append(r, next))
      modifies this`steps, this`now, this`end, store
      ensures IsWay(way, start, goal) && way(steps, now, end) && Shows(now, config, thread, store.state)
      ensures OthersKept(old(store.state), store.state, thread)
      ensures stored.Some? ==> now == old(now).(log := old(now.log) + [r], pc := next) && end == Going
      ensures stored.None? ==> now.pc == Free && now.log == old(now.log) && end == UnstoredAt(old(now.pc))
      ensures IsEar(ear, start.log, plan, thread, from)
      ensures ear(now.log, store.state.events,
                if stored.Some? && published then told + [stored.value] else told, published)
    {
      ghost var before, fate := store.state, Stored;
      stored, fate := store.Append(thread, r);
      ShowsWrite(now, config, thread, before, r, next, fate);
      HeardWrite(ear, start.log, plan, now.log, before, thread, from, told, published, r, fate);
      AppendTaken(way, start, goal, steps, now, end, choice, fate, r, next);
      end := if stored.Some? then Going else UnstoredAt(now.pc);
      steps, now := steps + [Work(choice, fate)], AppendTo(now, r, next, fate);
    }

    /** Appends and tells observers. */
    method Append(r: Record, ghost choice: Choice, ghost next: Pc) returns (ok: bool)
      requires Works() && Program(config, now.log, now.pc, choice) == Some(Action.Append(r, next))
      modifies this, store
      ensures Works() && OthersKept(old(store.state), store.state, thread)
      ensures ok ==> now == old(now).(log := old(now.log) + [r], pc := next) && end == Going
      ensures !ok ==> now.pc == Free && now.log == old(now.log) && end == UnstoredAt(old(now.pc))
    {
      var stored := AppendQuietly(r, choice, next);
      ok := stored.Some?;
      if ok {
        told := told + [stored.value];
      }
    }

    /** Tells observers what recovery recorded, if it recorded anything. */
    method Publish(receipts: seq<ToolReceipt>, failed: seq<TurnId>)
      requires Mends() && now.log == start.log + plan && plan == Plan(start.log)
      requires receipts == ReceiptsIn(plan) && failed == EndsIn(plan)
      modifies this`told, this`published
      ensures Works()
    {
      HeardPublished(ear, start.log, plan, now.log, store.state.events, thread, from, told, receipts, failed);
      if receipts != [] || failed != [] {
        told := store.LoadEnvelopes(thread, from);
      }
      published := true;
    }

    // ---- Recovery ----

    /** Adds one record to what was collected. */
    method Collect(r: Record, before: Facts) returns (f: Facts)
      ensures f == Note(before, r)
    {
      f := before;
      if r.turn.Some? {
        var turn := r.turn.value;
        match r.event {
          case TurnStarted => f := f.(open := f.open + {turn});
          case AssistantMessage(m) =>
            for i := 0 to |m.calls|
              invariant f == before.(calls := NoteCalls(before.calls, turn, m.calls[..i]))
            {
              assert m.calls[..i + 1][..i] == m.calls[..i];
              f := f.(calls := f.calls[Key(turn, m.calls[i].id) := m.calls[i]]);
            }
            assert m.calls[..|m.calls|] == m.calls;
          case ToolPrepared(p) => f := f.(prepared := f.prepared[Key(turn, p.callId) := p]);
          case ToolExecutionStarted(p) => f := f.(started := f.started[Key(turn, p.callId) := p]);
          case ToolReceiptRecorded(receipt) => f := f.(completed := f.completed + {Key(turn, receipt.callId)});
          case TurnCompleted(_) => f := f.(open := f.open - {turn});
          case TurnFailed(_) => f := f.(open := f.open - {turn});
          case TurnCancelled => f := f.(open := f.open - {turn});
          case _ =>
        }
      }
    }

    /** The pass over the thread's log. */
    method Scan() returns (f: Facts)
      requires Mirrors()
      ensures f == FactsOf(now.log)
    {
      var events := store.LoadThread(thread);
      f := NO_FACTS;
      for n := 0 to |events|
        invariant f == FactsOf(events[..n])
      {
        FactsAppend(events[..n], events[n]);
        assert events[..n + 1] == events[..n] + [events[n]];
        f := Collect(events[n], f);
      }
      assert events[..|events|] == events;
    }

    /** Appends the next record of the plan. */
    method AppendNext(
      r: Record, ghost log: seq<Record>, ghost done: seq<Record>, ghost rest: seq<Record>, ghost goal: Goal)
      returns (ok: bool)
      requires Mends() && now.log == log + done && now.pc == Recovering([r] + rest, goal, |done|)
      modifies this, store
      ensures Mends() && OthersKept(old(store.state), store.state, thread)
      ensures ok ==> now.log == log + (done + [r]) && now.pc == Recovering(rest, goal, |done| + 1)
      ensures !ok ==> Stopped(now, end, log, done + ([r] + rest))
    {
      HeadAndTail(r, rest);
      Associative(log, done, [r]);
      var stored := AppendQuietly(r, Proceed, Recovering(rest, goal, |done| + 1));
      ok := stored.Some?;
      assert done < done + ([r] + rest);
    }

    /** The receipt of one call: what is certain about it decides what is said. */
    method RecordReceipt(
      f: Facts, key: Key, ghost log: seq<Record>, ghost done: seq<Record>, ghost rest: seq<Record>, ghost goal: Goal)
      returns (ok: bool, receipt: ToolReceipt)
      requires key in Known(f) && Mends()
      requires now.log == log + done && now.pc == Recovering([ReceiptRecord(f, key)] + rest, goal, |done|)
      modifies this, store
      ensures Mends() && OthersKept(old(store.state), store.state, thread) && receipt == ReceiptFor(f, key)
      ensures ok ==> now.log == log + (done + [ReceiptRecord(f, key)]) && now.pc == Recovering(rest, goal, |done| + 1)
      ensures !ok ==> Stopped(now, end, log, done + ([ReceiptRecord(f, key)] + rest))
    {
      if key in f.started {
        receipt := UnknownReceipt(f.started[key], StartedWithoutReceipt);
      } else if key in f.prepared {
        receipt := FailedReceipt(f.prepared[key], InterruptedBeforeExecution);
      } else {
        receipt := MalformedReceipt(f.calls[key], InterruptedBeforePreparation);
      }
      ok := AppendNext(Record(Some(key.turn), ToolReceiptRecorded(receipt)), log, done, rest, goal);
    }

    method RecordLeast(f: Facts, key: Key, ghost todo: set<Key>, ghost log: seq<Record>, ghost done: seq<Record>,
                       ghost ends: seq<Record>, ghost goal: Goal, ghost receipts: seq<ToolReceipt>)
      returns (ok: bool, receipt: ToolReceipt)
      requires todo <= Known(f) && IsLeast(key, todo, KeyLess) && Mends()
      requires Recovered(now, log, done, ReceiptRecords(f, SortedKeys(todo)) + ends, goal, receipts, [])
      modifies this, store
      ensures Mends() && OthersKept(old(store.state), store.state, thread)
      ensures ok ==>
          Recovered(now, log, done + [ReceiptRecord(f, key)],
            ReceiptRecords(f, SortedKeys(todo - {key})) + ends, goal, receipts + [receipt], [])
      ensures (done + [ReceiptRecord(f, key)]) + ReceiptRecords(f, SortedKeys(todo - {key}))
          == done + ReceiptRecords(f, SortedKeys(todo))
      ensures !ok ==> Stopped(now, end, log, (done + ReceiptRecords(f, SortedKeys(todo))) + ends)
    {
      ghost var r, rest := ReceiptRecord(f, key), ReceiptRecords(f, SortedKeys(todo - {key}));
      NextReceipt(f, todo, key);
      Regroup(done, r, rest, ends);
      ok, receipt := RecordReceipt(f, key, log, done, rest + ends, goal);
      ReportAppend(done, r);
    }

    /** Calls with a receipt are passed over. */
    method RecordKey(f: Facts, ghost keys: set<Key>, key: Key, ghost log: seq<Record>, ghost done: seq<Record>,
                     ghost ends: seq<Record>, ghost goal: Goal, receipts: seq<ToolReceipt>)
      returns (ok: bool, more: seq<ToolReceipt>, ghost done': seq<Record>)
      requires keys <= Known(f) && IsLeast(key, keys, KeyLess) && Mends()
      requires Recovered(now, log, done, ReceiptRecords(f, SortedKeys(keys - f.completed)) + ends, goal, receipts, [])
      modifies this, store
      ensures Mends() && OthersKept(old(store.state), store.state, thread)
      ensures ok ==>
          Recovered(now, log, done', ReceiptRecords(f, SortedKeys((keys - {key}) - f.completed)) + ends, goal, more, [])
      ensures done' + ReceiptRecords(f, SortedKeys((keys - {key}) - f.completed))
          == done + ReceiptRecords(f, SortedKeys(keys - f.completed))
      ensures !ok ==> Stopped(now, end, log, (done + ReceiptRecords(f, SortedKeys(keys - f.completed))) + ends)
    {
      KeyTakenOut(keys, key, f.completed);
      if key in f.completed {
        return true, receipts, done;
      }
      var receipt;
      ok, receipt := RecordLeast(f, key, keys - f.completed, log, done, ends, goal, receipts);
      more, done' := receipts + [receipt], done + [ReceiptRecord(f, key)];
    }

    /** Receipts for all calls without one, in key order. */
    method RecordReceipts(f: Facts, ghost log: seq<Record>, ghost ends: seq<Record>, ghost goal: Goal)
      returns (ok: bool, receipts: seq<ToolReceipt>, ghost done: seq<Record>)
      requires Mends() && Recovered(now, log, [], ReceiptRecords(f, SortedKeys(Outstanding(f))) + ends, goal, [], [])
      modifies this, store
      ensures Mends() && OthersKept(old(store.state), store.state, thread)
      ensures ok ==> Recovered(now, log, done, ends, goal, receipts, [])
      ensures ok ==> done == ReceiptRecords(f, SortedKeys(Outstanding(f)))
      ensures !ok ==> Stopped(now, end, log, ReceiptRecords(f, SortedKeys(Outstanding(f))) + ends)
    {
      ok, receipts, done := true, [], [];
      ghost var all := ReceiptRecords(f, SortedKeys(Outstanding(f)));
      var keys := Known(f);
      assert [] + all == all;
      while keys != {}
        invariant ok && keys <= Known(f) && Mends() && OthersKept(old(store.state), store.state, thread)
        invariant done + ReceiptRecords(f, SortedKeys(keys - f.completed)) == all
        invariant Recovered(now, log, done,
          ReceiptRecords(f, SortedKeys(keys - f.completed)) + ends, goal, receipts, [])
        decreases keys
      {
        var key := LeastKey(keys);
        ok, receipts, done := RecordKey(f, keys, key, log, done, ends, goal, receipts);
        keys := keys - {key};
        if !ok {
          return;
        }
      }
      NoReceiptLeft(f, done, ends);
    }

    method FailTurn(turn: TurnId, ghost open: set<TurnId>, ghost log: seq<Record>, ghost done: seq<Record>,
                    ghost receipts: seq<ToolReceipt>, ghost failed: seq<TurnId>, ghost goal: Goal) returns (ok: bool)
      requires IsLeast(turn, open, Less) && Mends()
      requires Recovered(now, log, done, EndRecords(SortedTurns(open)), goal, receipts, failed)
      modifies this, store
      ensures Mends() && OthersKept(old(store.state), store.state, thread)
      ensures ok ==>
          Recovered(now, log, done + [EndRecord(turn)],
            EndRecords(SortedTurns(open - {turn})), goal, receipts, failed + [turn])
      ensures (done + [EndRecord(turn)]) + EndRecords(SortedTurns(open - {turn}))
          == done + EndRecords(SortedTurns(open))
      ensures !ok ==> Stopped(now, end, log, done + EndRecords(SortedTurns(open)))
    {
      NextEnd(open, turn);
      Associative(done, [EndRecord(turn)], EndRecords(SortedTurns(open - {turn})));
      ReportAppend(done, EndRecord(turn));
      ok := AppendNext(Record(Some(turn), TurnFailed(InterruptedAndRecovered)), log, done,
          EndRecords(SortedTurns(open - {turn})), goal);
    }

    /** The end of every open turn, in order. */
    method FailTurns(
      turns: set<TurnId>, ghost log: seq<Record>, ghost before: seq<Record>, ghost receipts: seq<ToolReceipt>,
      ghost goal: Goal)
      returns (ok: bool, failed: seq<TurnId>)
      requires Mends() && Recovered(now, log, before, EndRecords(SortedTurns(turns)), goal, receipts, [])
      modifies this, store
      ensures Mends() && OthersKept(old(store.state), store.state, thread)
      ensures ok ==> Recovered(now, log, before + EndRecords(SortedTurns(turns)), [], goal, receipts, failed)
      ensures !ok ==> Stopped(now, end, log, before + EndRecords(SortedTurns(turns)))
    {
      ok, failed := true, [];
      var open := turns;
      ghost var all, done := before + EndRecords(SortedTurns(turns)), before;
      while open != {}
        invariant ok && Mends() && OthersKept(old(store.state), store.state, thread)
        invariant done + EndRecords(SortedTurns(open)) == all
        invariant Recovered(now, log, done, EndRecords(SortedTurns(open)), goal, receipts, failed)
        decreases open
      {
        var turn := LeastId(open);
        ok := FailTurn(turn, open, log, done, receipts, failed, goal);
        if !ok {
          return;
        }
        done, failed, open := done + [EndRecord(turn)], failed + [turn], open - {turn};
      }
      assert done + [] == done;
    }

    /** Closes what was interrupted: a receipt for every call without one, then the end of
        every open turn; the report lists exactly what was appended. */
    method RecoverThread(ghost goal: Goal) returns (ok: bool, receipts: seq<ToolReceipt>, failed: seq<TurnId>)
      requires Mends() && now.log == start.log && now.pc == Recovering(plan, goal, 0) && plan == Plan(start.log)
      modifies this, store
      ensures Mends() && OthersKept(old(store.state), store.state, thread)
      ensures ok ==> Recovered(now, start.log, plan, [], goal, receipts, failed)
      ensures !ok ==> Stopped(now, end, start.log, plan)
    {
      ghost var log, done := now.log, [];
      var f := Scan();
      assert log + [] == log;
      failed := [];
      ok, receipts, done := RecordReceipts(f, log, EndRecords(SortedTurns(f.open)), goal);
      if ok {
        ok, failed := FailTurns(f.open, log, done, receipts, goal);
      }
    }

    /** Recovers the thread and publishes what that recorded. */
    method RecoverExclusive(ghost goal: Goal) returns (ok: bool, receipts: seq<ToolReceipt>, failed: seq<TurnId>)
      requires Mends() && now.log == start.log && now.pc == Recovering(plan, goal, 0) && plan == Plan(start.log)
      modifies this, store
      ensures Mirrors() && OthersKept(old(store.state), store.state, thread) && published == ok
      ensures ok ==> Recovered(now, start.log, plan, [], goal, receipts, failed)
      ensures !ok ==> Stopped(now, end, start.log, plan)
    {
      ok, receipts, failed := RecoverThread(goal);
      if ok {
        Publish(receipts, failed);
      }
    }

    /** A recovery that is all its caller asked for. */
    method Recover() returns (ok: bool, receipts: seq<ToolReceipt>, failed: seq<TurnId>)
      requires Mends() && now.log == start.log && now.pc == Checking(JustRecover) && plan == Plan(start.log)
      modifies this, store
      ensures Mirrors() && OthersKept(old(store.state), store.state, thread) && now.pc == Free
      ensures Reported(now, end, start.log, ok, receipts, failed) && published == ok
    {
      RecoveryBegins(config, start.log);
      Jump(Proceed, Recovering(plan, JustRecover, 0));
      ok, receipts, failed := RecoverExclusive(JustRecover);
      if ok {
        RecoveryEnds(config, now, start.log, receipts, failed);
        Jump(Proceed, Free);
      }
    }

    // ---- Ending a turn ----

    /** Receipts for calls that will not be prepared any more. */
    method DenyCalls(turn: TurnId, calls: seq<ToolCall>, reason: Reason, ghost rest: seq<Event>) returns (ok: bool)
      requires Works() && now.pc == Closing(turn, DeniedEvents(calls, reason) + rest)
      modifies this, store
      ensures Works() && OthersKept(old(store.state), store.state, thread)
      ensures now.pc == if ok then Closing(turn, rest) else Free
      ensures !ok ==> end == Unstored
    {
      assert calls[0..] == calls;
      for i := 0 to |calls|
        invariant Works() && OthersKept(old(store.state), store.state, thread)
        invariant now.pc == Closing(turn, DeniedEvents(calls[i..], reason) + rest)
      {
        DeniedStep(calls, i, reason, rest);
        ok := Append(Record(Some(turn), ToolReceiptRecorded(DeniedReceipt(calls[i], None, reason))), Proceed,
          Closing(turn, DeniedEvents(calls[i + 1..], reason) + rest));
        if !ok {
          return;
        }
      }
      assert calls[|calls|..] == [] && [] + rest == rest;
      ok := true;
    }

    /** Appends the event that ends the turn; the turn's error is told, unless that fails. */
    method EndTurn(turn: TurnId, event: Event, error: TurnError) returns (told: TurnError)
      requires Works() && now.pc == Closing(turn, [event]) && ClosedBy(error, event)
      modifies this, store
      ensures Works() && OthersKept(old(store.state), store.state, thread)
      ensures now.pc == Free && Tells(told, end, now.log, turn) && !end.ReceiptLost?
    {
      assert [event][1..] == [];
      var ok := Append(Record(Some(turn), event), Proceed, Closing(turn, []));
      if !ok {
        return StoreFailed;
      }
      Jump(Proceed, Free);
      assert LastIs(now.log, turn, event);
      told := error;
    }

    method CancelTurn(turn: TurnId, calls: seq<ToolCall>) returns (told: TurnError)
      requires Works() && now.pc == Closing(turn, DeniedEvents(calls, CancelledBeforePreparation) + [TurnCancelled])
      modifies this, store
      ensures Works() && OthersKept(old(store.state), store.state, thread)
      ensures now.pc == Free && Tells(told, end, now.log, turn)
    {
      var ok := DenyCalls(turn, calls, CancelledBeforePreparation, [TurnCancelled]);
      if !ok {
        return StoreFailed;
      }
      told := EndTurn(turn, TurnCancelled, CancelledTurn);
    }

    /** A hook refused: the failure is recorded, then the turn fails. */
    method FailHook(turn: TurnId, point: HookPoint, error: Reason) returns (told: TurnError)
      requires Works() && now.pc == Closing(turn, [HookFailed(point, error), TurnFailed(error)])
      modifies this, store
      ensures Works() && OthersKept(old(store.state), store.state, thread)
      ensures now.pc == Free && Tells(told, end, now.log, turn) && !end.ReceiptLost?
    {
      assert [HookFailed(point, error), TurnFailed(error)][1..] == [TurnFailed(error)];
      var ok := Append(Record(Some(turn), HookFailed(point, error)), Proceed, Closing(turn, [TurnFailed(error)]));
      if !ok {
        return StoreFailed;
      }
      told := EndTurn(turn, TurnFailed(error), HookError(error));
    }

    // ---- One call ----

    /** Records a receipt of a call that is not executed. */
    method SettleCall(ghost site: Site, ghost choice: Choice, turn: TurnId, receipt: ToolReceipt)
      returns (settled: Result<ToolReceipt, TurnError>)
      requires Works() && turn == site.vars.turn && !now.pc.Recording?
      requires Program(config, now.log, now.pc, choice) == Some(Settle(site, receipt))
      modifies this, store
      ensures Works() && OthersKept(old(store.state), store.state, thread)
      ensures settled == Ok(receipt) || (settled == Err(StoreFailed) && end == Unstored)
      ensures now.pc == if settled.Ok? then Calling(site.After(receipt)) else Free
    {
      var ok := Append(Record(Some(turn), ToolReceiptRecorded(receipt)), choice, Calling(site.After(receipt)));
      settled := if ok then Ok(receipt) else Err(StoreFailed);
    }

    /** Approval of a prepared action. */
    method RequestApproval(ghost site: Site, turn: TurnId, call: ToolCall, p: PreparedToolCall)
      returns (decision: Result<Decision, TurnError>)
      requires Works() && turn == site.vars.turn && site.Valid() && call == site.Call()
      requires now.pc == Hooking(site, p) && config.Capabilities().Grant(call.name) == Ask
      modifies this, store
      ensures Works() && OthersKept(old(store.state), store.state, thread)
      ensures now.pc == if decision.Ok? then Resolved(site, p, decision.value) else Free
      ensures decision.Err? ==> Tells(decision.error, end, now.log, turn)
    {
      var ok := Append(Record(Some(turn), ApprovalRequested(call.id, p.action)), Proceed, AwaitingApproval(site, p));
      if !ok {
        return Err(StoreFailed);
      }
      var dropped: bool, answer: Decision := *, *;
      if dropped {
        Drop();
        return Err(FutureDropped);
      }
      ok := Append(Record(Some(turn), ApprovalResolved(p.callId, answer)), Approver(answer), Resolved(site, p, answer));
      decision := if ok then Ok(answer) else Err(StoreFailed);
    }

    /** Calls the executor; no answer when the future is dropped meanwhile. */
    method AwaitExecutor(ghost site: Site, turn: TurnId, p: PreparedToolCall) returns (answer: Option<ExecResult>)
      requires Works() && turn == site.vars.turn && now.pc == Entering(site, p)
      modifies this`steps, this`now, this`end
      ensures Works()
      ensures now.pc == if answer.Some? then Recording(site, p, answer.value) else Free
      ensures answer.None? ==> end == Abandoned
    {
      ExecutorIsCalled(config, now.log, site, p);
      Cross(Proceed, Enter(turn, p, Executing(site, p)));
      var dropped: bool, result: ExecResult := *, *;
      if dropped {
        Drop();
        return None;
      }
      ExecutorAnswers(config, now.log, site, p, result);
      Cross(Executor(result), Return(result, Recording(site, p, result)));
      answer := Some(result);
    }

    /** Calls the executor for an action whose start is durable and records what it says. If
        the executor has answered and its receipt cannot be recorded, that is the error. */
    method Execute(ghost site: Site, turn: TurnId, p: PreparedToolCall)
      returns (receipt: Result<ToolReceipt, TurnError>)
      requires Works() && turn == site.vars.turn && now.pc == Entering(site, p)
      modifies this, store
      ensures Works() && OthersKept(old(store.state), store.state, thread)
      ensures now.pc == if receipt.Ok? then Calling(site.After(receipt.value)) else Free
      ensures receipt.Err? ==> Tells(receipt.error, end, now.log, turn)
      ensures receipt == Err(ReceiptPersistenceUnknown(p.callId, p.action.toolName)) <==> end == ReceiptLost(p)
    {
      var answer := AwaitExecutor(site, turn, p);
      if answer.None? {
        return Err(FutureDropped);
      }
      receipt := RecordAnswer(site, turn, p, answer.value);
    }

    method RecordAnswer(ghost site: Site, turn: TurnId, p: PreparedToolCall, answer: ExecResult)
      returns (receipt: Result<ToolReceipt, TurnError>)
      requires Works() && turn == site.vars.turn && now.pc == Recording(site, p, answer)
      modifies this, store
      ensures Works() && OthersKept(old(store.state), store.state, thread)
      ensures now.pc == if receipt.Ok? then Calling(site.After(receipt.value)) else Free
      ensures receipt.Err? ==> Tells(receipt.error, end, now.log, turn)
      ensures receipt == Err(ReceiptPersistenceUnknown(p.callId, p.action.toolName)) <==> end == ReceiptLost(p)
    {
      var said := ReceiptOf(p, answer);
      var ok := Append(Record(Some(turn), ToolReceiptRecorded(said)), Proceed, Settled(site, said));
      if !ok {
        return Err(ReceiptPersistenceUnknown(said.callId, said.toolName));
      }
      receipt := AfterTool(site, turn, said);
      if receipt.Err? {
        NoReceiptLost(receipt.error, end, now.log, turn);
      }
    }

    /** The hooks that see a recorded receipt; one that fails ends the turn at once. */
    method AfterTool(ghost site: Site, turn: TurnId, said: ToolReceipt)
      returns (receipt: Result<ToolReceipt, TurnError>)
      requires Works() && turn == site.vars.turn && now.pc == Settled(site, said)
      modifies this, store
      ensures Works() && OthersKept(old(store.state), store.state, thread)
      ensures now.pc == if receipt.Ok? then Calling(site.After(receipt.value)) else Free
      ensures receipt.Ok? ==> receipt.value == said && end == Going
      ensures receipt.Err? ==> Tells(receipt.error, end, now.log, turn) && !end.ReceiptLost?
    {
      var hook: Option<Reason> := *;
      if hook.Some? {
        Jump(HookFails(hook.value),
            Closing(turn, [HookFailed(HookPoint.AfterTool, hook.value), TurnFailed(hook.value)]));
        var error := FailHook(turn, HookPoint.AfterTool, hook.value);
        return Err(error);
      }
      Jump(Proceed, Calling(site.After(said)));
      receipt := Ok(said);
    }

    /** Preparation of a registered, granted call: the prepared call, or the receipt it was
        settled with. */
    method PrepareCall(ghost site: Site, turn: TurnId, call: ToolCall) returns (r: Result<Preparation, TurnError>)
      requires Works() && turn == site.vars.turn && site.Valid() && call == site.Call() && now.pc == Calling(site)
      requires call.name in config.tools && config.Capabilities().Grant(call.name) != Deny
      modifies this, store
      ensures Works() && OthersKept(old(store.state), store.state, thread)
      ensures r.Ok? && r.value.Usable? ==>
          now.pc == Hooking(site, r.value.prepared) && r.value.prepared.callId == call.id
      ensures r.Ok? && r.value.Receipted? ==> now.pc == Calling(site.After(r.value.receipt))
      ensures r.Err? ==> r == Err(StoreFailed) && now.pc == Free && end == Unstored
    {
      var failure: Option<Reason>, p: PreparedToolCall := *, *;
      if failure.None? && p.callId == call.id && p.action.toolName == call.name {
        var ok := Append(Record(Some(turn), ToolPrepared(p)), Prepares(p), Hooking(site, p));
        return if ok then Ok(Usable(p)) else Err(StoreFailed);
      }
      var settled;
      if failure.Some? {
        settled := SettleCall(site, PrepareFails(failure.value), turn, MalformedReceipt(call, failure.value));
      } else {
        settled := SettleCall(site, Prepares(p), turn, MalformedReceipt(call, PreparationChangedCall));
      }
      r := if settled.Ok? then Ok(Receipted(settled.value)) else Err(settled.error);
    }

    /** A hook refused the prepared call. */
    method RefuseCall(ghost site: Site, turn: TurnId, call: ToolCall, p: PreparedToolCall, error: Reason)
      returns (receipt: Result<ToolReceipt, TurnError>)
      requires Works() && turn == site.vars.turn && site.Valid() && call == site.Call() && now.pc == Hooking(site, p)
      modifies this, store
      ensures Works() && OthersKept(old(store.state), store.state, thread)
      ensures now.pc == if receipt.Ok? then Calling(site.After(receipt.value)) else Free
      ensures receipt.Err? ==> receipt == Err(StoreFailed) && end == Unstored
    {
      var denied := DeniedReceipt(call, Some(p.action), error);
      var ok := Append(Record(Some(turn), HookFailed(BeforeTool, error)), HookFails(error), Denying(site, denied));
      if !ok {
        return Err(StoreFailed);
      }
      receipt := SettleCall(site, Proceed, turn, denied);
    }

    /** From a prepared call to its start: hooks, then approval if the grant asks for it. No
        receipt means that the start is recorded. */
    method AuthorizeCall(ghost site: Site, turn: TurnId, call: ToolCall, p: PreparedToolCall, access: Access)
      returns (r: Result<Option<ToolReceipt>, TurnError>)
      requires Works() && turn == site.vars.turn && site.Valid() && call == site.Call() && now.pc == Hooking(site, p)
      requires p.callId == call.id && access == config.Capabilities().Grant(call.name)
      modifies this, store
      ensures Works() && OthersKept(old(store.state), store.state, thread)
      ensures r == Ok(None) ==> now.pc == Entering(site, p)
      ensures r.Ok? && r.value.Some? ==> now.pc == Calling(site.After(r.value.value))
      ensures r.Err? ==> now.pc == Free && Tells(r.error, end, now.log, turn)
    {
      var hook: Option<Reason> := *;
      if hook.Some? {
        var refused := RefuseCall(site, turn, call, p, hook.value);
        return AsReceipt(refused);
      }
      if access == Ask {
        r := SeekApproval(site, turn, call, p);
        if r != Ok(None) {
          return;
        }
      } else {
        AllowedStarts(config, now.log, site, p);
      }
      var started := Append(Record(Some(turn), ToolExecutionStarted(p)), Proceed, Entering(site, p));
      r := if started then Ok(None) else Err(StoreFailed);
    }

    /** Asks for approval; no receipt means that the very action was approved. */
    method SeekApproval(ghost site: Site, turn: TurnId, call: ToolCall, p: PreparedToolCall)
      returns (r: Result<Option<ToolReceipt>, TurnError>)
      requires Works() && turn == site.vars.turn && site.Valid() && call == site.Call() && now.pc == Hooking(site, p)
      requires config.Capabilities().Grant(call.name) == Ask
      modifies this, store
      ensures Works() && OthersKept(old(store.state), store.state, thread)
      ensures r == Ok(None) ==>
          now.pc.Resolved? && Program(config, now.log, now.pc, Proceed)
          == Some(Action.Append(By(site.vars, ToolExecutionStarted(p)), Entering(site, p)))
      ensures r.Ok? && r.value.Some? ==> now.pc == Calling(site.After(r.value.value))
      ensures r.Err? ==> now.pc == Free && Tells(r.error, end, now.log, turn)
    {
      var decision := RequestApproval(site, turn, call, p);
      if decision.Err? {
        return Err(decision.error);
      }
      var denial := DenialReason(p, decision.value);
      if denial.Some? {
        var denied := SettleCall(site, Proceed, turn, DeniedReceipt(call, Some(p.action), denial.value));
        return AsReceipt(denied);
      }
      ApprovedStarts(config, now.log, site, p, decision.value);
      r := Ok(None);
    }

    static function AsReceipt(r: Result<ToolReceipt, TurnError>): Result<Option<ToolReceipt>, TurnError> {
      if r.Ok? then Ok(Some(r.value)) else Err(r.error)
    }

    method HandleToolCall(ghost site: Site, turn: TurnId, call: ToolCall, capabilities: Projection)
      returns (receipt: Result<ToolReceipt, TurnError>)
      requires Works() && turn == site.vars.turn && site.Valid() && call == site.Call()
          && capabilities == config.Capabilities()
      requires now.pc == Calling(site)
      modifies this, store
      ensures Works() && OthersKept(old(store.state), store.state, thread)
      ensures now.pc == if receipt.Ok? then Calling(site.After(receipt.value)) else Free
      ensures receipt.Err? ==> Tells(receipt.error, end, now.log, turn)
    {
      var access := capabilities.Grant(call.name);
      if call.name !in config.tools {
        receipt := SettleCall(site, Proceed, turn, DeniedReceipt(call, None, NotRegistered));
        return;
      }
      if access == Deny {
        receipt := SettleCall(site, Proceed, turn, DeniedReceipt(call, None, DeniedByProjection));
        return;
      }
      var prepared := PrepareCall(site, turn, call);
      if prepared.Err? {
        return Err(prepared.error);
      }
      if prepared.value.Receipted? {
        return Ok(prepared.value.receipt);
      }
      receipt := RunPrepared(site, turn, call, prepared.value.prepared, access);
    }

    /** The rest of a call that was prepared. */
    method RunPrepared(ghost site: Site, turn: TurnId, call: ToolCall, p: PreparedToolCall, access: Access)
      returns (receipt: Result<ToolReceipt, TurnError>)
      requires Works() && turn == site.vars.turn && site.Valid() && call == site.Call() && now.pc == Hooking(site, p)
      requires p.callId == call.id && access == config.Capabilities().Grant(call.name)
      modifies this, store
      ensures Works() && OthersKept(old(store.state), store.state, thread)
      ensures now.pc == if receipt.Ok? then Calling(site.After(receipt.value)) else Free
      ensures receipt.Err? ==> Tells(receipt.error, end, now.log, turn)
    {
      var authorized := AuthorizeCall(site, turn, call, p, access);
      if authorized.Err? {
        return Err(authorized.error);
      }
      if authorized.value.Some? {
        return Ok(authorized.value.value);
      }
      receipt := Execute(site, turn, p);
    }

    // ---- One turn ----

    /** Recovers the thread before a turn of it starts, and publishes what that recorded. */
    method RecoverFirst(turn: TurnId, input: string) returns (ok: bool)
      requires Mends() && now.log == start.log && now.pc == Recovering(plan, Goal.RunTurn(turn, input), 0)
          && plan == Plan(start.log)
      modifies this, store
      ensures Mirrors() && OthersKept(old(store.state), store.state, thread) && published == ok
      ensures ok ==> now.pc == Starting(turn, input) && now.log == start.log + plan
      ensures !ok ==> Stopped(now, end, start.log, plan)
    {
      var receipts, failed;
      ok, receipts, failed := RecoverExclusive(Goal.RunTurn(turn, input));
      if ok {
        TurnFollowsRecovery(config, now, start.log, plan, turn, input, receipts, failed);
        Jump(Proceed, Starting(turn, input));
      }
    }

    /** Checks that the turn is new and recovers the thread it is for. */
    method TakeUp(turn: TurnId, input: string) returns (r: Result<(), TurnError>)
      requires Mends() && now.log == start.log && now.pc == Checking(Goal.RunTurn(turn, input))
          && plan == Plan(start.log)
      modifies this, store
      ensures Mirrors() && OthersKept(old(store.state), store.state, thread) && published == r.Ok?
      ensures r.Ok? ==> now.pc == Starting(turn, input) && now.log == start.log + plan
      ensures r == Err(DuplicateTurn) <==> UsesTurn(start.log, turn)
      ensures r.Err? ==> now.pc == Free && Tells(r.error, end, now.log, turn) && Unrecovered(start.log, plan, now.log)
    {
      var records := store.LoadThread(thread);
      if UsesTurn(records, turn) {
        Jump(Proceed, Free);
        return Err(DuplicateTurn);
      }
      Jump(Proceed, Recovering(plan, Goal.RunTurn(turn, input), 0));
      var ok := RecoverFirst(turn, input);
      if !ok {
        StoppedIsUnrecovered(now, end, start.log, plan);
        return Err(StoreFailed);
      }
      r := Ok(());
    }

    /** The user's message opens the exchange; the transcript is reconstructed once. */
    method Greet(turn: TurnId, input: string) returns (transcript: Option<seq<Message>>)
      requires Works() && now.pc == Greeting(turn, input)
      modifies this, store
      ensures Works() && OthersKept(old(store.state), store.state, thread)
      ensures now.pc == if transcript.Some? then Head(Vars(turn, 0, transcript.value, {})) else Free
      ensures transcript.Some? ==> transcript.value == Transcript(now.log)
      ensures transcript.None? ==> end == Unstored
    {
      var r := Record(Some(turn), UserMessage(input));
      ghost var greeted := now.log + [r];
      var ok := Append(r, Proceed, Head(Vars(turn, 0, Transcript(greeted), {})));
      var records := store.LoadThread(thread);
      transcript := if ok then Some(Transcript(records)) else None;
    }

    /** From the guard to the first loop head: the thread is recovered, the turn begins. */
    method Begin(turn: TurnId, input: string) returns (r: Result<seq<Message>, TurnError>)
      requires Mends() && now.log == start.log && now.pc == Checking(Goal.RunTurn(turn, input))
          && plan == Plan(start.log)
      modifies this, store
      ensures Mirrors() && OthersKept(old(store.state), store.state, thread)
      ensures published || Unrecovered(start.log, plan, now.log)
      ensures r.Ok? ==> published && r.value == Transcript(now.log)
      ensures now.pc == if r.Ok? then Head(Vars(turn, 0, r.value, {})) else Free
      ensures r.Err? ==> Tells(r.error, end, now.log, turn)
    {
      var taken := TakeUp(turn, input);
      if taken.Err? {
        return Err(taken.error);
      }
      r := StartTurn(turn, input);
    }

    /** The turn's first two events. */
    method StartTurn(turn: TurnId, input: string) returns (r: Result<seq<Message>, TurnError>)
      requires Works() && now.pc == Starting(turn, input)
      modifies this, store
      ensures Works() && OthersKept(old(store.state), store.state, thread)
      ensures r.Ok? ==> r.value == Transcript(now.log)
      ensures now.pc == if r.Ok? then Head(Vars(turn, 0, r.value, {})) else Free
      ensures r.Err? ==> r == Err(StoreFailed) && end == Unstored
    {
      var ok := Append(Record(Some(turn), TurnStarted), Proceed, Greeting(turn, input));
      if !ok {
        return Err(StoreFailed);
      }
      var transcript := Greet(turn, input);
      r := if transcript.Some? then Ok(transcript.value) else Err(StoreFailed);
    }

    /** From the loop head to a started model request; an error when the turn is over. */
    method CompileContext(turn: TurnId, iteration: nat, ghost v: Vars, visible: set<string>)
      returns (r: Result<(), TurnError>)
      requires Works() && now.pc == Head(v) && v.turn == turn && v.iteration == iteration
      requires iteration < config.maxIterations && visible == config.Capabilities().Visible()
      modifies this, store
      ensures Works() && OthersKept(old(store.state), store.state, thread)
      ensures now.pc == if r.Ok? then AwaitingModel(v) else Free
      ensures r.Err? ==> Tells(r.error, end, now.log, turn)
    {
      var error;
      var cancelled: bool, failure: Option<Reason>, hook: Option<Reason>, messageCount: nat := *, *, *, *;
      if cancelled {
        assert DeniedEvents([], CancelledBeforePreparation) + [TurnCancelled] == [TurnCancelled];
        Jump(Cancelled, Closing(turn, [TurnCancelled]));
        error := CancelTurn(turn, []);
        return Err(error);
      }
      if failure.Some? {
        Jump(CompileFails(failure.value), Closing(turn, [TurnFailed(failure.value)]));
        error := EndTurn(turn, TurnFailed(failure.value), ContextError(failure.value));
        return Err(error);
      }
      if hook.Some? {
        Jump(HookFails(hook.value), Closing(turn, [HookFailed(BeforeModel, hook.value), TurnFailed(hook.value)]));
        error := FailHook(turn, BeforeModel, hook.value);
        return Err(error);
      }
      r := StartRequest(turn, iteration, v, visible, messageCount);
    }

    /** The compiled context and the request are recorded, in this order. */
    method StartRequest(turn: TurnId, iteration: nat, ghost v: Vars, visible: set<string>, messageCount: nat)
      returns (r: Result<(), TurnError>)
      requires Works() && now.pc == Head(v) && v.turn == turn && v.iteration == iteration
      requires iteration < config.maxIterations && visible == config.Capabilities().Visible()
      modifies this, store
      ensures Works() && OthersKept(old(store.state), store.state, thread)
      ensures now.pc == if r.Ok? then AwaitingModel(v) else Free
      ensures r.Err? ==> r == Err(StoreFailed) && end == Unstored
    {
      var compiled := Record(Some(turn), ContextCompiled(iteration, messageCount, visible));
      var ok := Append(compiled, Compiles(messageCount), Requesting(v));
      if ok {
        ok := Append(Record(Some(turn), ModelRequestStarted(iteration)), Proceed, AwaitingModel(v));
      }
      r := if ok then Ok(()) else Err(StoreFailed);
    }

    /** The model's answer, once it is recorded; an error when the turn is over. */
    method AwaitModel(turn: TurnId, ghost v: Vars, seen: set<CallId>) returns (r: Result<ModelResponse, TurnError>)
      requires Works() && now.pc == AwaitingModel(v) && v.turn == turn && v.seen == seen
      modifies this, store
      ensures Works() && OthersKept(old(store.state), store.state, thread)
      ensures now.pc == if r.Ok? then Deciding(Replied(v, r.value), r.value) else Free
      ensures r.Err? ==> Tells(r.error, end, now.log, turn)
    {
      var dropped: bool, failure: Option<Reason>, m: ModelResponse := *, *, *;
      var error;
      if dropped {
        Drop();
        return Err(FutureDropped);
      }
      if failure.Some? {
        error := FailRequest(turn, v, failure.value);
        return Err(error);
      }
      var unusable := ValidateToolCalls(m.calls, seen);
      if unusable.Some? {
        Jump(ModelReplies(m), Closing(turn, [TurnFailed(unusable.value)]));
        error := EndTurn(turn, TurnFailed(unusable.value), InvalidModelResponse(unusable.value));
        return Err(error);
      }
      var ok := Append(Record(Some(turn), AssistantMessage(m)), ModelReplies(m), Deciding(Replied(v, m), m));
      r := if ok then Ok(m) else Err(StoreFailed);
    }

    /** The model failed: the turn is cancelled if that was asked for, and fails otherwise. */
    method FailRequest(turn: TurnId, ghost v: Vars, failure: Reason) returns (error: TurnError)
      requires Works() && now.pc == AwaitingModel(v) && v.turn == turn
      modifies this, store
      ensures Works() && OthersKept(old(store.state), store.state, thread)
      ensures now.pc == Free && Tells(error, end, now.log, turn)
    {
      var cancelled: bool := *;
      if cancelled {
        assert DeniedEvents([], CancelledBeforePreparation) + [TurnCancelled] == [TurnCancelled];
        Jump(ModelFails(failure, true), Closing(turn, [TurnCancelled]));
        error := CancelTurn(turn, []);
      } else {
        Jump(ModelFails(failure, false), Closing(turn, [TurnFailed(failure)]));
        error := EndTurn(turn, TurnFailed(failure), ModelError(failure));
      }
    }

    /** The next call of a response, unless the turn was cancelled before it. */
    method HandleNext(ghost site: Site, turn: TurnId, calls: seq<ToolCall>, index: nat, capabilities: Projection)
      returns (receipt: Result<ToolReceipt, TurnError>)
      requires Works() && turn == site.vars.turn && capabilities == config.Capabilities()
      requires calls == site.calls && index == site.index < |calls| && now.pc == Calling(site)
      modifies this, store
      ensures Works() && OthersKept(old(store.state), store.state, thread)
      ensures now.pc == if receipt.Ok? then Calling(site.After(receipt.value)) else Free
      ensures receipt.Err? ==> Tells(receipt.error, end, now.log, turn)
    {
      var cancelled: bool := *;
      if cancelled {
        Jump(Cancelled, Closing(turn, DeniedEvents(calls[index..], CancelledBeforePreparation) + [TurnCancelled]));
        var error := CancelTurn(turn, calls[index..]);
        return Err(error);
      }
      receipt := HandleToolCall(site, turn, calls[index], capabilities);
    }

    /** All calls of the response are handled. */
    ghost method NextIteration(site: Site)
      requires Works() && site.index == |site.calls| && now.pc == Calling(site)
      modifies this`steps, this`now, this`end
      ensures Works() && now.pc == Head(site.vars.(iteration := site.vars.iteration + 1))
    {
      Jump(Proceed, Head(site.vars.(iteration := site.vars.iteration + 1)));
    }

    /** The loop over the calls of one response. */
    method HandleCalls(
      turn: TurnId, calls: seq<ToolCall>, capabilities: Projection, ghost v: Vars, transcript: seq<Message>)
      returns (r: Result<seq<Message>, TurnError>)
      requires Works() && v.turn == turn && v.transcript == transcript && capabilities == config.Capabilities()
      requires now.pc == Calling(Site(v, calls, 0))
      modifies this, store
      ensures Works() && OthersKept(old(store.state), store.state, thread)
      ensures now.pc == if r.Ok? then Head(v.(transcript := r.value, iteration := v.iteration + 1)) else Free
      ensures r.Err? ==> Tells(r.error, end, now.log, turn)
    {
      var messages := transcript;
      ghost var site := Site(v, calls, 0);
      for index := 0 to |calls|
        invariant Works() && OthersKept(old(store.state), store.state, thread)
        invariant site == Site(v.(transcript := messages), calls, index) && now.pc == Calling(site)
      {
        var receipt := HandleNext(site, turn, calls, index, capabilities);
        if receipt.Err? {
          return Err(receipt.error);
        }
        messages := messages + [Tool(receipt.value)];
        site := site.After(receipt.value);
      }
      NextIteration(site);
      r := Ok(messages);
    }

    /** A response that stopped short or contradicts itself: none of its calls is prepared. */
    method RejectResponse(turn: TurnId, m: ModelResponse, stop: Reason) returns (error: TurnError)
      requires Works() && now.pc == Closing(turn, DeniedEvents(m.calls, stop) + [TurnFailed(stop)])
      requires StopError(m) == Some(stop)
      modifies this, store
      ensures Works() && OthersKept(old(store.state), store.state, thread)
      ensures now.pc == Free && Tells(error, end, now.log, turn)
    {
      var ok := DenyCalls(turn, m.calls, stop, [TurnFailed(stop)]);
      if !ok {
        return StoreFailed;
      }
      error := EndTurn(turn, TurnFailed(stop), RejectionOf(m, stop));
    }

    /** A complete response without calls is the turn's answer. */
    method Complete(turn: TurnId, m: ModelResponse, ghost v: Vars) returns (content: Result<string, TurnError>)
      requires Works() && v.turn == turn && now.pc == Deciding(v, m) && StopError(m).None? && m.calls == []
      modifies this, store
      ensures Works() && OthersKept(old(store.state), store.state, thread)
      ensures now.pc == Free && Outcome(content, now, end, turn)
    {
      var ok := Append(Record(Some(turn), TurnCompleted(m.content)), Proceed, Free);
      content := if ok then Ok(m.content) else Err(StoreFailed);
    }

    /** Acts on one response: the turn is over, with its content if the response is complete,
        or all calls are handled and the loop goes on with the transcript they leave. */
    method ActOn(turn: TurnId, m: ModelResponse, capabilities: Projection, ghost v: Vars, transcript: seq<Message>)
      returns (r: Onward)
      requires Works() && v.turn == turn && v.transcript == transcript && capabilities == config.Capabilities()
      requires now.pc == Deciding(v, m)
      modifies this, store
      ensures Works() && OthersKept(old(store.state), store.state, thread)
      ensures r.Over? ==> now.pc == Free && Outcome(r.result, now, end, turn)
      ensures r.Again? ==> now.pc == Head(v.(transcript := r.transcript, iteration := v.iteration + 1))
    {
      var stop, cancelled: bool, error := StopError(m), *, StoreFailed;
      if stop.Some? {
        Jump(Proceed, Closing(turn, DeniedEvents(m.calls, stop.value) + [TurnFailed(stop.value)]));
        error := RejectResponse(turn, m, stop.value);
        return Over(Err(error));
      }
      if cancelled {
        Jump(Cancelled, Closing(turn, DeniedEvents(m.calls, CancelledBeforePreparation) + [TurnCancelled]));
        error := CancelTurn(turn, m.calls);
        return Over(Err(error));
      }
      if m.calls == [] {
        var content := Complete(turn, m, v);
        return Over(content);
      }
      Jump(Proceed, Calling(Site(v, m.calls, 0)));
      var handled := HandleCalls(turn, m.calls, capabilities, v, transcript);
      r := if handled.Ok? then Again(handled.value) else Over(Err(handled.error));
    }

    /** One iteration: a compiled context, a model request, and what its answer asks for. */
    method Iterate(turn: TurnId, iteration: nat, capabilities: Projection, transcript: seq<Message>, seen: set<CallId>)
      returns (r: Onward, ids: set<CallId>)
      requires Works() && capabilities == config.Capabilities() && iteration < config.maxIterations
      requires now.pc == Head(Vars(turn, iteration, transcript, seen))
      modifies this, store
      ensures Works() && OthersKept(old(store.state), store.state, thread)
      ensures r.Over? ==> now.pc == Free && Outcome(r.result, now, end, turn)
      ensures r.Again? ==> now.pc == Head(Vars(turn, iteration + 1, r.transcript, ids))
    {
      ids := seen;
      ghost var v := Vars(turn, iteration, transcript, seen);
      var requested := CompileContext(turn, iteration, v, capabilities.Visible());
      if requested.Err? {
        return Over(Err(requested.error)), ids;
      }
      var response := AwaitModel(turn, v, seen);
      if response.Err? {
        return Over(Err(response.error)), ids;
      }
      var m := response.value;
      ids := seen + CallIds(m.calls);
      var messages := transcript + [Assistant(m.content, m.calls)];
      v := Vars(turn, iteration, messages, ids);
      assert now.pc == Deciding(v, m);
      r := ActOn(turn, m, capabilities, v, messages);
    }

    method RunLoop(turn: TurnId, input: string) returns (result: Result<string, TurnError>)
      requires Mends() && now.log == start.log && now.pc == Checking(Goal.RunTurn(turn, input))
          && plan == Plan(start.log)
      modifies this, store
      ensures Mirrors() && OthersKept(old(store.state), store.state, thread)
      ensures published || Unrecovered(start.log, plan, now.log)
      ensures now.pc == Free && Outcome(result, now, end, turn)
    {
      var begun := Begin(turn, input);
      if begun.Err? {
        return Err(begun.error);
      }
      var transcript, seen: set<CallId> := begun.value, {};
      var capabilities := config.Capabilities();
      for iteration := 0 to config.maxIterations
        invariant Works() && OthersKept(old(store.state), store.state, thread)
        invariant now.pc == Head(Vars(turn, iteration, transcript, seen))
      {
        var next;
        next, seen := Iterate(turn, iteration, capabilities, transcript, seen);
        if next.Over? {
          return next.result;
        }
        transcript := next.transcript;
      }
      var error := GiveUp(turn, Vars(turn, config.maxIterations, transcript, seen));
      result := Err(error);
    }

    /** The model has had all its iterations. */
    method GiveUp(turn: TurnId, ghost v: Vars) returns (error: TurnError)
      requires Works() && v.turn == turn && v.iteration == config.maxIterations && now.pc == Head(v)
      modifies this, store
      ensures Works() && OthersKept(old(store.state), store.state, thread)
      ensures now.pc == Free && Tells(error, end, now.log, turn)
    {
      var reason := TooManyIterations(config.maxIterations);
      IterationsRunOut(config, now.log, v);
      Jump(Proceed, Closing(turn, [TurnFailed(reason)]));
      error := EndTurn(turn, TurnFailed(reason), MaxModelIterations(config.maxIterations));
    }

    /** A whole turn. However it ends, the machine allowed every step of it, so the thread
        is left with the invariant it was taken up with; the result tells how it ended, and
        observers were told of all it recorded, unless it got stuck in recovery. */
    method Run(turn: TurnId, input: string) returns (result: Result<string, TurnError>)
      requires Mends() && now.log == start.log && now.pc == Checking(Goal.RunTurn(turn, input))
          && plan == Plan(start.log)
      modifies this, store
      ensures Mirrors() && OthersKept(old(store.state), store.state, thread)
      ensures now.pc == Free && Outcome(result, now, end, turn)
      ensures Inv(start) ==> Inv(now)
      ensures ToldAll(start, now, store.state.events, thread, from, told)
    {
      result := RunLoop(turn, input);
      HeardIsAll(ear, start, plan, now, store.state.events, thread, from, told, published);
      WayLed(way, start, goal, steps, now, end);
    }
  }

  /** The threads somebody holds. */
  class ActiveThreads {
    var threads: set<ThreadId>

    constructor ()
      ensures threads == {}
    {
      threads := {};
    }

    method Acquire(thread: ThreadId) returns (ok: bool)
      modifies this
      ensures ok <==> thread !in old(threads)
      ensures threads == old(threads) + {thread}
    {
      ok := thread !in threads;
      threads := threads + {thread};
    }

    method Release(thread: ThreadId)
      modifies this
      ensures threads == old(threads) - {thread}
    {
      threads := threads - {thread};
    }
  }

  /** A thread that is unknown, or held by somebody else, is not touched. */
  ghost predicate Untouchable(active: set<ThreadId>, store: Store, thread: ThreadId) {
    thread in active || !HasThread(RecordsOf(store.events, thread))
  }

  /** What a call on a thread nobody may touch answers. */
  function Untouched(active: set<ThreadId>, store: Store, thread: ThreadId): TurnError {
    if !HasThread(RecordsOf(store.events, thread)) then UnknownThread else ConcurrentTurn
  }

  /** A turn under its guard: what it leaves in the store is where the steps of exactly one
      activity lead, its result tells how that ended, observers were told of all it recorded
      if it got past recovery, and however it ends the guard is given back. */
  method RunGuarded(
    active: ActiveThreads, store: EventStore, thread: ThreadId, config: Config, turn: TurnId, input: string,
    ghost start: Thread)
    returns (result: Result<string, TurnError>, told: seq<Envelope>, ghost steps: seq<Step>, ghost now: Thread)
    requires Shows(start, config, thread, store.state) && start.pc == Free && Ordered(store.state.events)
    modifies active, store
    ensures active.threads == old(active.threads) && OthersKept(old(store.state), store.state, thread)
    ensures if Untouchable(old(active.threads), old(store.state), thread)
            then result == Err(Untouched(old(active.threads), old(store.state), thread))
                 && store.state == old(store.state) && now == start && told == []
            else Mirrored(start, Goal.RunTurn(turn, input), steps, now, config, thread, store.state) && now.pc == Free
                 && Outcome(result, now, EndOf(start, steps), turn)
                 && ToldAll(start, now, store.state.events, thread,
                      NextSequence(EnvelopesOf(old(store.state.events), thread, 0)), told)
  {
    told, steps, now := [], [], start;
    var records := store.LoadThread(thread);
    if !HasThread(records) {
      return Err(UnknownThread), told, steps, now;
    }
    var ok := active.Acquire(thread);
    if !ok {
      return Err(ConcurrentTurn), told, steps, now;
    }
    result, told, steps, now := RunHeld(store, thread, config, turn, input, start);
    active.Release(thread);
  }

  /** A turn on a thread whose guard was taken. */
  method RunHeld(
    store: EventStore, thread: ThreadId, config: Config, turn: TurnId, input: string, ghost start: Thread)
    returns (result: Result<string, TurnError>, told: seq<Envelope>, ghost steps: seq<Step>, ghost now: Thread)
    requires Shows(start, config, thread, store.state) && start.pc == Free && HasThread(start.log)
    requires Ordered(store.state.events)
    modifies store
    ensures OthersKept(old(store.state), store.state, thread)
    ensures Mirrored(start, Goal.RunTurn(turn, input), steps, now, config, thread, store.state) && now.pc == Free
    ensures Outcome(result, now, EndOf(start, steps), turn)
    ensures ToldAll(start, now, store.state.events, thread,
              NextSequence(EnvelopesOf(old(store.state.events), thread, 0)), told)
  {
    var recorded := store.LoadEnvelopes(thread, 0);
    var work := new Activity(store, thread, config, NextSequence(recorded), start, Goal.RunTurn(turn, input));
    result := work.Run(turn, input);
    WayLed(work.way, start, work.goal, work.steps, work.now, work.end);
    told, steps, now := work.told, work.steps, work.now;
  }

  /** A recovery of a thread whose guard was taken. */
  method RecoverHeld(store: EventStore, thread: ThreadId, config: Config, ghost start: Thread)
    returns (
      ok: bool, receipts: seq<ToolReceipt>, failed: seq<TurnId>, told: seq<Envelope>, ghost steps: seq<Step>,
      ghost now: Thread)
    requires Shows(start, config, thread, store.state) && start.pc == Free && HasThread(start.log)
    requires Ordered(store.state.events)
    modifies store
    ensures OthersKept(old(store.state), store.state, thread)
    ensures Mirrored(start, JustRecover, steps, now, config, thread, store.state) && now.pc == Free
    ensures Reported(now, EndOf(start, steps), start.log, ok, receipts, failed)
    ensures ToldAll(start, now, store.state.events, thread,
              NextSequence(EnvelopesOf(old(store.state.events), thread, 0)), told)
  {
    var recorded := store.LoadEnvelopes(thread, 0);
    var work := new Activity(store, thread, config, NextSequence(recorded), start, JustRecover);
    ok, receipts, failed := work.Recover();
    WayLed(work.way, start, work.goal, work.steps, work.now, work.end);
    HeardIsAll(work.ear, start, work.plan, work.now, store.state.events, thread, work.from, work.told, work.published);
    told, steps, now := work.told, work.steps, work.now;
  }

  /** An explicit recovery under the same guard. Its report lists exactly what it appended,
      or it tells that the store refused an append; observers are told of exactly what a
      finished one recorded. */
  method RecoverGuarded(active: ActiveThreads, store: EventStore, thread: ThreadId, config: Config, ghost start: Thread)
    returns (
      r: Result<(seq<ToolReceipt>, seq<TurnId>), TurnError>, told: seq<Envelope>, ghost steps: seq<Step>,
      ghost now: Thread)
    requires Shows(start, config, thread, store.state) && start.pc == Free && Ordered(store.state.events)
    modifies active, store
    ensures active.threads == old(active.threads) && OthersKept(old(store.state), store.state, thread)
    ensures if Untouchable(old(active.threads), old(store.state), thread)
            then r == Err(Untouched(old(active.threads), old(store.state), thread))
                 && store.state == old(store.state) && now == start && told == []
            else Mirrored(start, JustRecover, steps, now, config, thread, store.state) && now.pc == Free
                 && RecoveryTells(r, now, EndOf(start, steps), start.log)
                 && ToldAll(start, now, store.state.events, thread,
                      NextSequence(EnvelopesOf(old(store.state.events), thread, 0)), told)
  {
    told, steps, now := [], [], start;
    var records := store.LoadThread(thread);
    if !HasThread(records) {
      return Err(UnknownThread), told, steps, now;
    }
    var free := active.Acquire(thread);
    if !free {
      return Err(ConcurrentTurn), told, steps, now;
    }
    var ok, receipts, failed;
    ok, receipts, failed, told, steps, now := RecoverHeld(store, thread, config, start);
    r := if ok then Ok((receipts, failed)) else Err(StoreFailed);
    active.Release(thread);
  }

  lemma DeniedStep(calls: seq<ToolCall>, i: nat, reason: Reason, rest: seq<Event>)
    requires i < |calls|
    ensures var ends := DeniedEvents(calls[i..], reason) + rest;
            && ends != [] && ends[0] == ToolReceiptRecorded(DeniedReceipt(calls[i], None, reason))
            && ends[1..] == DeniedEvents(calls[i + 1..], reason) + rest
  {
    assert calls[i..][1..] == calls[i + 1..];
  }

  lemma NoReceiptLeft(f: Facts, done: seq<Record>, ends: seq<Record>)
    ensures var none: set<Key> := {} - f.completed;
            && none <= Known(f) && ReceiptRecords(f, SortedKeys(none)) + ends == ends
            && done + ReceiptRecords(f, SortedKeys(none)) == done
  {
    assert |SortedKeys({})| == 0;
  }

  lemma Regroup(done: seq<Record>, r: Record, rest: seq<Record>, ends: seq<Record>)
    ensures ([r] + rest) + ends == [r] + (rest + ends)
    ensures done + ([r] + rest) == (done + [r]) + rest
    ensures done + ([r] + (rest + ends)) == (done + ([r] + rest)) + ends
  {
    Associative([r], rest, ends);
    Associative(done, [r], rest);
    Associative(done, [r] + rest, ends);
  }

  lemma NextEnd(open: set<TurnId>, turn: TurnId)
    requires IsLeast(turn, open, Less)
    ensures EndRecords(SortedTurns(open)) == [EndRecord(turn)] + EndRecords(SortedTurns(open - {turn}))
  {
    SortedTurnsFrom(open, turn);
    EndRecordsOf(turn, SortedTurns(open - {turn}));
  }

  /** The next receipt in key order. */
  lemma NextReceipt(f: Facts, todo: set<Key>, key: Key)
    requires todo <= Known(f) && IsLeast(key, todo, KeyLess)
    ensures ReceiptRecords(f, SortedKeys(todo)) == [ReceiptRecord(f, key)] + ReceiptRecords(f, SortedKeys(todo - {key}))
  {
    SortedKeysFrom(todo, key);
    ReceiptRecordsOf(f, key, SortedKeys(todo - {key}));
  }
}
