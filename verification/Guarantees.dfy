/** What holds for the records, the executor calls and the model's view of every thread
    in every state of every run, however turns, recoveries, dropped futures, failed
    appends and restarts interleave. */
module Guarantees {
  import opened Wrappers
  import opened Sequences
  import opened Ids
  import opened Protocol
  import opened Policy
  import opened Journal
  import opened LogGrammar
  import opened Recovery
  import opened RecoveredLogs
  import opened TurnMachine
  import opened TurnSafety
  import opened TurnSteps
  import opened Runtime
  import opened RuntimeSafety
  import opened Transcripts

  // ---- From one thread's steps to whole runs ----

  lemma SafeAt(states: seq<System>, i: nat, t: ThreadId)
    requires IsSystemRun(states) && i < |states|
    ensures Exclusive(states[i]) && Latching(states[i]) && Inv(View(states[i], t))
  {
    RunsAreSafe(states, i);
  }

  lemma StepSeen(states: seq<System>, i: nat, t: ThreadId)
    requires IsSystemRun(states) && i + 1 < |states|
    ensures Simulated(states[i], states[i + 1], t)
  {
    RunsAreSafe(states, i);
    assert Moves(states[i], states[i + 1]);
    var move :| MoveEnabled(states[i], move) && states[i + 1] == After(states[i], move);
    MovesSimulateSteps(states[i], move, t);
  }

  /** What every step of a thread keeps holds of it in every state of a run. */
  lemma {:induction false} HoldsInRuns(states: seq<System>, i: nat, t: ThreadId, p: Thread -> bool)
    requires IsSystemRun(states) && i < |states|
    requires forall config :: p(Initial(config))
    requires forall a, b :: Inv(a) && p(a) && Follows(a, b) ==> p(b)
    ensures p(View(states[i], t))
  {
    if i == 0 {
      var config :| states[0] == Booted(config);
      PcOfNobody(states[0], t);
      assert View(states[0], t) == Initial(config);
    } else {
      HoldsInRuns(states, i - 1, t, p);
      SafeAt(states, i - 1, t);
      StepSeen(states, i - 1, t);
    }
  }

  lemma {:induction false} RelatedAlong<S(!new)>(xs: seq<S>, i: nat, j: nat, rel: (S, S) -> bool)
    requires i <= j < |xs|
    requires forall n :: i <= n < j ==> rel(xs[n], xs[n + 1])
    requires forall a :: rel(a, a)
    requires forall a, b, c :: rel(a, b) && rel(b, c) ==> rel(a, c)
    ensures rel(xs[i], xs[j])
  {
    if i < j {
      RelatedAlong(xs, i, j - 1, rel);
      assert rel(xs[j - 1], xs[j - 1 + 1]);
    }
  }

  // ---- The log ----

  predicate OpenIn(log: seq<Record>, turn: TurnId) {
    Count(log, Begins(turn)) > Count(log, Ends(turn))
  }

  /** At most one turn is open, and it is the only one without its single end; a call has
      at most one receipt and one execution start, none unless it was accepted; at every
      point at which a turn starts or the model is about to be asked each accepted call has
      its receipt; and a call without one belongs to the last message of the model. */
  ghost predicate ProtocolKept(log: seq<Record>) {
    && (forall a: TurnId :: Count(log, Ends(a)) <= Count(log, Begins(a)) <= 1)
    && (forall a: TurnId, b: TurnId :: OpenIn(log, a) && OpenIn(log, b) ==> a == b)
    && (forall k: Key :: Count(log, Receives(k)) <= Count(log, Accepts(k)) <= 1)
    && (forall k: Key :: Count(log, Starts(k)) <= Count(log, Accepts(k)))
    && (forall j, k: Key :: 0 <= j < |log| && NeedsClosure(log[j].event) ==>
          Count(log[..j], Receives(k)) == Count(log[..j], Accepts(k)))
    && (forall j, i, k: Key :: 0 <= j < i < |log| && Accepts(k).On(log[j]) && Count(log, Receives(k)) == 0 ==>
          !NeedsClosure(log[i].event))
  }

  lemma LegalLogsKeepProtocol(log: seq<Record>)
    requires Legal(log)
    ensures ProtocolKept(log)
  {
    forall a: TurnId ensures Count(log, Ends(a)) <= Count(log, Begins(a)) <= 1 {
      TurnsAreSequential(log, a, a);
    }
    forall a: TurnId, b: TurnId | OpenIn(log, a) && OpenIn(log, b) ensures a == b {
      TurnsAreSequential(log, a, b);
    }
    forall k: Key
      ensures Count(log, Receives(k)) <= Count(log, Accepts(k)) <= 1
      ensures Count(log, Starts(k)) <= Count(log, Accepts(k))
    {
      AtMostOnce(log, k);
    }
    forall j, k: Key | 0 <= j < |log| && NeedsClosure(log[j].event)
      ensures Count(log[..j], Receives(k)) == Count(log[..j], Accepts(k))
    {
      ReceiptClosure(log, j, k);
    }
    forall j, i, k: Key | 0 <= j < i < |log| && Accepts(k).On(log[j]) && Count(log, Receives(k)) == 0
      ensures !NeedsClosure(log[i].event)
    {
      UnreceiptedCallsAreLast(log, j, k);
    }
  }

  /** Every thread's log keeps the protocol in every state of every run: the log that is
      loaded now and the one that would be loaded after a restart at this very point. */
  lemma ThreadsKeepTheProtocol(states: seq<System>, i: nat, t: ThreadId)
    requires IsSystemRun(states) && i < |states|
    ensures ProtocolKept(RecordsOf(states[i].store.events, t))
    ensures ProtocolKept(RecordsOf(Reopen(states[i].store).events, t))
  {
    SafeAt(states, i, t);
    RecordsConcat(states[i].store.events, states[i].store.landed, t);
    LegalLogsKeepProtocol(RecordsOf(states[i].store.events, t));
    LegalLogsKeepProtocol(RecordsOf(Reopen(states[i].store).events, t));
  }

  /** A recovery works on a thread alone: nobody else is running a turn of it. */
  lemma RecoveryTouchesNoLiveTurn(states: seq<System>, i: nat, id: nat, other: nat)
    requires IsSystemRun(states) && i < |states|
    requires id in states[i].tasks && states[i].tasks[id].held && states[i].tasks[id].pc.Recovering?
    requires other in states[i].tasks && states[i].tasks[other].held && other != id
    ensures states[i].tasks[other].thread != states[i].tasks[id].thread
  {
    SafeAt(states, i, states[i].tasks[id].thread);
    if states[i].tasks[other].thread == states[i].tasks[id].thread {
      assert Holds(states[i], id, states[i].tasks[id].thread) && Holds(states[i], other, states[i].tasks[id].thread);
    }
  }

  /** When a recovery has appended all it planned, and so when a new turn begins, every
      call the thread ever accepted has exactly one receipt and every turn has ended. */
  lemma RecoveredThreadsAreClosed(states: seq<System>, i: nat, t: ThreadId, k: Key, turn: TurnId)
    requires IsSystemRun(states) && i < |states|
    requires PcOf(states[i], t).Starting? || (PcOf(states[i], t).Recovering? && PcOf(states[i], t).todo == [])
    ensures var log := LogOf(states[i], t);
            && Count(log, Receives(k)) == Count(log, Accepts(k))
            && Count(log, Ends(turn)) == Count(log, Begins(turn))
  {
    SafeAt(states, i, t);
    var log := LogOf(states[i], t);
    if PcOf(states[i], t).Recovering? {
      NothingPlannedMeansClosed(log);
    }
    LegalLogsTally(log);
    assert KeyTallied(log, Read(log).value, k) && TurnTallied(log, Read(log).value, turn);
  }

  // ---- The executor ----

  /** What a thread becomes: its log is extended, executor calls are added, answers are
      given once, and no call is made that already has a receipt. */
  ghost predicate Grows(a: Thread, b: Thread) {
    && a.log <= b.log
    && |a.entries| <= |b.entries|
    && (forall n :: 0 <= n < |a.entries| ==> SameCall(a.entries[n], b.entries[n]))
    && (forall n :: |a.entries| <= n < |b.entries| ==> Count(a.log, Receives(b.entries[n].Key())) == 0)
  }

  predicate SameCall(a: Entry, b: Entry) {
    b == a || (a.result == None && b == a.(result := b.result))
  }

  lemma GrowsTransitive(a: Thread, b: Thread, c: Thread)
    requires Grows(a, b) && Grows(b, c)
    ensures Grows(a, c)
  {
    forall n | |a.entries| <= n < |c.entries| ensures Count(a.log, Receives(c.entries[n].Key())) == 0 {
      if n < |b.entries| {
        assert SameCall(b.entries[n], c.entries[n]);
      } else {
        assert b.log[..|a.log|] == a.log;
        CountMonotone(b.log, |a.log|, Receives(c.entries[n].Key()));
      }
    }
  }

  lemma AppendGrows(a: Thread, r: Record, next: Pc, fate: Fate)
    ensures Grows(a, AppendTo(a, r, next, fate))
  {
  }

  lemma EnterGrows(a: Thread, next: Pc, turn: TurnId, p: PreparedToolCall, fate: Fate)
    requires Legal(a.log) && Awaiting(Read(a.log).value, Key(turn, p.callId))
    ensures Grows(a, Perform(a, Enter(turn, p, next), fate))
  {
    LegalLogsTally(a.log);
    assert KeyTallied(a.log, Read(a.log).value, Key(turn, p.callId));
  }

  lemma ReturnGrows(a: Thread, next: Pc, result: ExecResult, fate: Fate)
    requires a.entries != [] && a.entries[|a.entries| - 1].result == None
    ensures Grows(a, Perform(a, Return(result, next), fate))
  {
  }

  lemma PerformGrows(a: Thread, action: Action, fate: Fate)
    requires Legal(a.log)
    requires action.Enter? ==> Awaiting(Read(a.log).value, Key(action.turn, action.prepared.callId))
    requires action.Return? ==> a.entries != [] && a.entries[|a.entries| - 1].result == None
    ensures Grows(a, Perform(a, action, fate))
  {
    match action {
      case Append(r, next) => AppendGrows(a, r, next, fate);
      case Goto(_) =>
      case Enter(turn, p, next) => EnterGrows(a, next, turn, p, fate);
      case Return(result, next) => ReturnGrows(a, next, result, fate);
    }
  }

  lemma EnteringAwaits(cfg: Config, log: seq<Record>, s: Scan, site: Site, p: PreparedToolCall)
    requires PcFits(Entering(site, p), log, s, cfg)
    ensures Awaiting(s, Key(site.vars.turn, p.callId))
  {
  }

  lemma ExecutingIsUnanswered(cfg: Config, entries: seq<Entry>, site: Site, p: PreparedToolCall)
    requires EntriesAt(Executing(site, p), entries, cfg)
    ensures entries != [] && entries[|entries| - 1].result == None
  {
  }

  lemma WorkGrows(a: Thread, choice: Choice, fate: Fate)
    requires Inv(a) && Enabled(a, Work(choice, fate))
    ensures Grows(a, Next(a, Work(choice, fate)))
  {
    CallingExecutor(a, choice);
    if a.pc.Entering? {
      EnteringAwaits(a.config, a.log, Read(a.log).value, a.pc.site, a.pc.prepared);
    } else if a.pc.Executing? {
      ExecutingIsUnanswered(a.config, a.entries, a.pc.site, a.pc.prepared);
    }
    PerformGrows(a, Program(a.config, a.log, a.pc, choice).value, fate);
  }

  lemma StepGrows(a: Thread, step: Step)
    requires Inv(a) && Enabled(a, step)
    ensures Grows(a, Next(a, step))
  {
    match step {
      case Create(fate) => AppendGrows(a, Record(None, ThreadStarted), Free, fate);
      case Work(choice, fate) => WorkGrows(a, choice, fate);
      case _ =>
    }
  }

  lemma MoveGrows(states: seq<System>, i: nat, t: ThreadId)
    requires IsSystemRun(states) && i + 1 < |states|
    ensures Grows(View(states[i], t), View(states[i + 1], t))
  {
    SafeAt(states, i, t);
    StepSeen(states, i, t);
    var a, b := View(states[i], t), View(states[i + 1], t);
    if b != a {
      var step :| Enabled(a, step) && b == Next(a, step);
      StepGrows(a, step);
    }
  }

  /** Over any stretch of a run a thread's log only gets longer, no executor call is
      forgotten or answered twice, and the executor is never entered for a call that
      already had a receipt when the stretch began. */
  lemma ReceiptedCallsAreNotEntered(states: seq<System>, i: nat, j: nat, t: ThreadId)
    requires IsSystemRun(states) && i <= j < |states|
    ensures Grows(View(states[i], t), View(states[j], t))
  {
    var rel := (a: Thread, b: Thread) => Grows(a, b);
    var views := seq(|states|, n requires 0 <= n < |states| => View(states[n], t));
    forall a, b, c | rel(a, b) && rel(b, c) ensures rel(a, c) {
      GrowsTransitive(a, b, c);
    }
    forall n | i <= n < j ensures rel(views[n], views[n + 1]) {
      MoveGrows(states, n, t);
    }
    RelatedAlong(views, i, j, rel);
  }

  lemma EnteringKeepsLog(a: Thread, step: Step)
    requires Enabled(a, step) && |Next(a, step).entries| > |a.entries|
    ensures Next(a, step).log == a.log && |Next(a, step).entries| == |a.entries| + 1
  {
  }

  /** The executor is entered at most once for a call, and each time it is, the start of
      exactly that prepared action was durable before. */
  lemma ExecutorIsEnteredOnce(states: seq<System>, i: nat, t: ThreadId)
    requires IsSystemRun(states) && i + 1 < |states|
    ensures var before, after := EntriesOf(states[i], t), EntriesOf(states[i + 1], t);
            && (forall m, n :: 0 <= m < n < |after| ==> after[m].Key() != after[n].Key())
            && (forall n :: |before| <= n < |after| ==>
                  Record(Some(after[n].turn), ToolExecutionStarted(after[n].prepared)) in LogOf(states[i], t))
  {
    SafeAt(states, i, t);
    SafeAt(states, i + 1, t);
    StepSeen(states, i, t);
    var a, b := View(states[i], t), View(states[i + 1], t);
    if |b.entries| > |a.entries| {
      var step :| Enabled(a, step) && b == Next(a, step);
      EnteringKeepsLog(a, step);
      assert EntryFits(b.log, b.Durable(), b.entries[|a.entries|]);
    }
  }

  /** The approval of an execution comes before its start. */
  lemma ApprovalComesFirst(log: seq<Record>, a: nat, b: nat, id: CallId)
    requires Legal(log) && a < |log| && b < |log| && log[a].turn == log[b].turn
    requires log[a].event.ApprovalResolved? && log[a].event.callId == id
    requires log[b].event.ToolExecutionStarted? && log[b].event.prepared.callId == id
    ensures a < b
  {
    if b < a {
      PrefixStep(log, a);
      var s := Read(log[..a]).value;
      var k := KeyIn(s, id);
      LegalLogsTally(log[..a]);
      assert KeyTallied(log[..a], s, k);
      CountAt(log, b, a, Starts(k));
    }
  }

  /** Approved before it was started, by a decision that names the executed action. */
  ghost predicate ApprovedFirst(log: seq<Record>, e: Entry) {
    exists a, b :: 0 <= a < b < |log|
      && log[a] == Record(Some(e.turn), ApprovalResolved(e.prepared.callId, Approved(e.prepared.action)))
      && log[b] == Record(Some(e.turn), ToolExecutionStarted(e.prepared))
  }

  /** Every executed call named a registered tool whose effective grant was not Deny, and
      under Ask an approval of exactly the executed action came first. No grant exceeds
      what the parent agent's projection allows. */
  lemma ExecutionIsAuthorized(states: seq<System>, i: nat, t: ThreadId, n: nat)
    requires IsSystemRun(states) && i < |states| && n < |EntriesOf(states[i], t)|
    ensures var e := EntriesOf(states[i], t)[n];
            var name, grant := e.prepared.action.toolName, e.config.Capabilities().Grant(e.prepared.action.toolName);
            && name in e.config.tools && grant != Deny
            && (grant == Ask ==> ApprovedFirst(LogOf(states[i], t), e))
            && (e.config.parent.Some? ==> e.config.parent.value.Grant(name).Rank() >= grant.Rank() > 0)
            && e.config.policy.Grant(name).Rank() >= grant.Rank()
  {
    SafeAt(states, i, t);
    var th := View(states[i], t);
    var e := th.entries[n];
    assert EntryFits(th.log, th.Durable(), e);
    if e.config.Capabilities().Grant(e.prepared.action.toolName) == Ask {
      var a :| 0 <= a < |th.log|
          && th.log[a] == Record(Some(e.turn), ApprovalResolved(e.prepared.callId, Approved(e.prepared.action)));
      var b :| 0 <= b < |th.log| && th.log[b] == Record(Some(e.turn), ToolExecutionStarted(e.prepared));
      ApprovalComesFirst(th.log, a, b, e.prepared.callId);
    }
  }

  /** Of an agent at the end of a spawn chain of any depth: what it executes, every one of
      its ancestors registers and grants at least as much by its own policy, and the grant
      exceeds no ancestor's projection. */
  lemma ExecutionStaysWithinAncestors(
    states: seq<System>, i: nat, t: ThreadId, n: nat, ancestors: seq<Agent>, depth: nat)
    requires IsSystemRun(states) && i < |states| && n < |EntriesOf(states[i], t)|
    requires 0 < depth <= |ancestors| && EntriesOf(states[i], t)[n].config.parent == Some(Chain(ancestors))
    ensures var e := EntriesOf(states[i], t)[n];
            var name, grant := e.prepared.action.toolName, e.config.Capabilities().Grant(e.prepared.action.toolName);
            && Chain(ancestors[..depth]).Grant(name).Rank() >= grant.Rank() > 0
            && name in ancestors[depth - 1].names && ancestors[depth - 1].policy.Grant(name).Rank() >= grant.Rank()
  {
    ExecutionIsAuthorized(states, i, t, n);
    var e := EntriesOf(states[i], t)[n];
    var name := e.prepared.action.toolName;
    ChainNeverWidens(ancestors, depth, name);
    ChainIsStrictest(ancestors, name, e.config.Capabilities().Grant(name));
  }

  // ---- What receipts say ----

  predicate ReturnedAs(e: Entry, turn: TurnId, r: ToolReceipt) {
    && e.Key() == Key(turn, r.callId) && r.action == Some(e.prepared.action)
    && r.output.Some? && e.result == Some(ExecOk(r.output.value))
  }

  ghost predicate ReturnedIn(entries: seq<Entry>, turn: TurnId, r: ToolReceipt) {
    exists n :: 0 <= n < |entries| && ReturnedAs(entries[n], turn, r)
  }

  /** Every success that is recorded is one the executor reported. */
  ghost predicate Backed(durable: seq<Record>, entries: seq<Entry>) {
    forall turn: TurnId, r: ToolReceipt ::
      r.status == Succeeded && Record(Some(turn), ToolReceiptRecorded(r)) in durable ==> ReturnedIn(entries, turn, r)
  }

  predicate ClaimsSuccess(r: Record) {
    r.event.ToolReceiptRecorded? && r.event.receipt.status == Succeeded
  }

  lemma UnstartedClaimsNothing(s: Scan, r: Record)
    requires r.event.ToolReceiptRecorded? && Admits(s, r) && !s.pending[r.event.receipt.callId].stage.Started?
    ensures !ClaimsSuccess(r)
  {
  }

  lemma RecoveryClaimsNoSuccess(log: seq<Record>)
    requires Plan(log) != []
    ensures !ClaimsSuccess(Plan(log)[0])
  {
    if Plan(log)[0].event.ToolReceiptRecorded? {
      RecoveredReceiptsAreHonest(log, Plan(log)[0]);
    }
  }

  lemma RecordedSuccess(entries: seq<Entry>, cfg: Config, turn: TurnId, p: PreparedToolCall, result: ExecResult)
    requires LastEntry(entries, turn, p, cfg, Some(result)) && ReceiptOf(p, result).status == Succeeded
    ensures ReturnedIn(entries, turn, ReceiptOf(p, result))
  {
    assert ReturnedAs(entries[|entries| - 1], turn, ReceiptOf(p, result));
  }

  lemma OthersClaimNothing(th: Thread, choice: Choice)
    requires Inv(th) && Program(th.config, th.log, th.pc, choice).Some? && !th.pc.Recovering? && !th.pc.Recording?
    requires Program(th.config, th.log, th.pc, choice).value.Append?
    ensures !ClaimsSuccess(Program(th.config, th.log, th.pc, choice).value.record)
  {
    var r := Program(th.config, th.log, th.pc, choice).value.record;
    EveryActionFits(th.config, th.log, th.pc, choice);
    DeniedIsUnstarted(th.config, th.log, Read(th.log).value, th.pc, choice);
    if r.event.ToolReceiptRecorded? {
      UnstartedClaimsNothing(Read(th.log).value, r);
    }
  }

  lemma SuccessComesFromExecutor(th: Thread, choice: Choice)
    requires Inv(th) && Program(th.config, th.log, th.pc, choice).Some?
    requires Program(th.config, th.log, th.pc, choice).value.Append?
    requires ClaimsSuccess(Program(th.config, th.log, th.pc, choice).value.record)
    ensures var r := Program(th.config, th.log, th.pc, choice).value.record;
            r.turn.Some? && ReturnedIn(th.entries, r.turn.value, r.event.receipt)
  {
    if th.pc.Recording? {
      RecordedSuccess(th.entries, th.config, th.pc.site.vars.turn, th.pc.prepared, th.pc.result);
    } else if th.pc.Recovering? {
      RecoveryClaimsNoSuccess(th.log);
    } else {
      OthersClaimNothing(th, choice);
    }
  }

  lemma BackedAppend(durable: seq<Record>, entries: seq<Entry>, r: Record)
    requires Backed(durable, entries)
    requires ClaimsSuccess(r) && r.turn.Some? ==> ReturnedIn(entries, r.turn.value, r.event.receipt)
    ensures Backed(durable + [r], entries)
  {
  }

  lemma BackedGrows(durable: seq<Record>, a: seq<Entry>, b: seq<Entry>)
    requires Backed(durable, a) && |a| <= |b|
    requires forall n :: 0 <= n < |a| ==> SameCall(a[n], b[n])
    ensures Backed(durable, b)
  {
    forall turn: TurnId, r: ToolReceipt | r.status == Succeeded && Record(Some(turn), ToolReceiptRecorded(r)) in durable
      ensures ReturnedIn(b, turn, r)
    {
      assert ReturnedIn(a, turn, r);
      var n :| 0 <= n < |a| && ReturnedAs(a[n], turn, r);
      assert SameCall(a[n], b[n]) && ReturnedAs(b[n], turn, r);
    }
  }

  lemma AppendStaysBacked(th: Thread, r: Record, next: Pc, fate: Fate)
    requires th.landed == [] || th.latched
    requires Backed(th.Durable(), th.entries)
    requires ClaimsSuccess(r) && r.turn.Some? ==> ReturnedIn(th.entries, r.turn.value, r.event.receipt)
    ensures Backed(AppendTo(th, r, next, fate).Durable(), th.entries)
  {
    BackedAppend(th.Durable(), th.entries, r);
    if !th.latched {
      assert th.log + [] == th.log;
      assert (th.log + [r]) + [] == th.log + [r];
    }
  }

  lemma WorkStaysBacked(th: Thread, choice: Choice, fate: Fate)
    requires Inv(th) && Enabled(th, Work(choice, fate)) && Backed(th.Durable(), th.entries)
    ensures Backed(Next(th, Work(choice, fate)).Durable(), Next(th, Work(choice, fate)).entries)
  {
    var action := Program(th.config, th.log, th.pc, choice).value;
    if action.Append? {
      if ClaimsSuccess(action.record) {
        SuccessComesFromExecutor(th, choice);
      }
      AppendStaysBacked(th, action.record, action.next, fate);
    } else {
      WorkGrows(th, choice, fate);
      BackedGrows(th.Durable(), th.entries, Next(th, Work(choice, fate)).entries);
    }
  }

  lemma StepStaysBacked(th: Thread, step: Step)
    requires Inv(th) && Enabled(th, step) && Backed(th.Durable(), th.entries)
    ensures Backed(Next(th, step).Durable(), Next(th, step).entries)
  {
    match step {
      case Create(fate) => AppendStaysBacked(th, Record(None, ThreadStarted), Free, fate);
      case Work(choice, fate) => WorkStaysBacked(th, choice, fate);
      case Restart(_) => assert Next(th, step).Durable() == th.Durable();
      case _ =>
    }
  }

  /** In every state of every run: a durable Succeeded receipt carries the output the
      executor returned for that very call; a receipt of a call that was entered is never
      Denied, Failed only with the error the executor returned, and Unknown only because
      the executor said so or because recovery found a start without a receipt. */
  lemma ReceiptsAreHonest(states: seq<System>, i: nat, t: ThreadId, turn: TurnId, r: ToolReceipt)
    requires IsSystemRun(states) && i < |states|
    requires Record(Some(turn), ToolReceiptRecorded(r)) in RecordsOf(Reopen(states[i].store).events, t)
    ensures r.status == Succeeded ==> ReturnedIn(EntriesOf(states[i], t), turn, r)
    ensures var entries := EntriesOf(states[i], t);
            forall n :: 0 <= n < |entries| && entries[n].Key() == Key(turn, r.callId) ==> Honest(r, entries[n])
  {
    var th := View(states[i], t);
    SafeAt(states, i, t);
    RecordsConcat(states[i].store.events, states[i].store.landed, t);
    var backed := (x: Thread) => Backed(x.Durable(), x.entries);
    forall a, b | Inv(a) && backed(a) && Follows(a, b) ensures backed(b) {
      var step :| Enabled(a, step) && b == Next(a, step);
      StepStaysBacked(a, step);
    }
    HoldsInRuns(states, i, t, backed);
    forall n | 0 <= n < |th.entries| && th.entries[n].Key() == Key(turn, r.callId) ensures Honest(r, th.entries[n]) {
      assert EntryFits(th.log, th.Durable(), th.entries[n]);
    }
  }

  /** A receipt with which recovery says a call failed is only ever written for a call the
      executor was not entered for; and it is not entered for it afterwards either. */
  lemma RecoveredFailuresWereNeverEntered(states: seq<System>, i: nat, j: nat, t: ThreadId, r: Record)
    requires IsSystemRun(states) && i < j < |states|
    requires r in Plan(LogOf(states[i], t)) && r.event.ToolReceiptRecorded? && r.event.receipt.status == Failed
    requires r in LogOf(states[i + 1], t)
    ensures r.turn.Some? && Untried(EntriesOf(states[j], t), Key(r.turn.value, r.event.receipt.callId))
  {
    SafeAt(states, i, t);
    FailedIsUntried(View(states[i], t), r);
    PlannedIsNew(LogOf(states[i], t), r);
    ReceiptedStaysUntried(states, i, j, t, r);
  }

  /** A call the executor was not entered for before its receipt was appended is never entered. */
  lemma ReceiptedStaysUntried(states: seq<System>, i: nat, j: nat, t: ThreadId, r: Record)
    requires IsSystemRun(states) && i < j < |states| && r.event.ToolReceiptRecorded? && r.turn.Some?
    requires r !in LogOf(states[i], t) && r in LogOf(states[i + 1], t)
    requires Untried(EntriesOf(states[i], t), Key(r.turn.value, r.event.receipt.callId))
    ensures Untried(EntriesOf(states[j], t), Key(r.turn.value, r.event.receipt.callId))
  {
    AppendedNotEntered(states, i, t, r);
    ReceiptedCallsAreNotEntered(states, i, i + 1, t);
    ReceiptedCallsAreNotEntered(states, i + 1, j, t);
    FailureStays(View(states[i], t), View(states[i + 1], t), View(states[j], t), r);
  }

  lemma PlannedIsNew(log: seq<Record>, r: Record)
    requires r in Plan(log) && r.event.ToolReceiptRecorded?
    ensures r !in log
  {
    RecoveredReceiptsAreHonest(log, r);
    assert r == Record(r.turn, ToolReceiptRecorded(r.event.receipt));
  }

  lemma FailureStays(a: Thread, b: Thread, c: Thread, r: Record)
    requires Grows(a, b) && Grows(b, c) && |b.entries| <= |a.entries|
    requires r in b.log && r.event.ToolReceiptRecorded? && r.turn.Some?
    requires Untried(a.entries, Key(r.turn.value, r.event.receipt.callId))
    ensures Untried(c.entries, Key(r.turn.value, r.event.receipt.callId))
  {
    var k := Key(r.turn.value, r.event.receipt.callId);
    StaysUntried(a, b, k);
    RecordCounts(b.log, r, Receives(k));
    StaysUntried(b, c, k);
  }

  lemma FailedIsUntried(th: Thread, r: Record)
    requires Inv(th) && r in Plan(th.log) && r.event.ToolReceiptRecorded? && r.event.receipt.status == Failed
    ensures r.turn.Some? && Untried(th.entries, Key(r.turn.value, r.event.receipt.callId))
  {
    RecoveredReceiptsAreHonest(th.log, r);
    forall n | 0 <= n < |th.entries| ensures th.entries[n].Key() != Key(r.turn.value, r.event.receipt.callId) {
      assert EntryFits(th.log, th.Durable(), th.entries[n]);
    }
  }

  lemma StaysUntried(a: Thread, b: Thread, k: Key)
    requires Grows(a, b) && Untried(a.entries, k)
    requires |b.entries| == |a.entries| || Count(a.log, Receives(k)) > 0
    ensures Untried(b.entries, k)
  {
    forall n | 0 <= n < |b.entries| ensures b.entries[n].Key() != k {
      if n < |a.entries| {
        assert SameCall(a.entries[n], b.entries[n]);
      }
    }
  }

  /** The move that makes a record durable calls no executor. */
  lemma AppendedNotEntered(states: seq<System>, i: nat, t: ThreadId, r: Record)
    requires IsSystemRun(states) && i + 1 < |states|
    requires r in LogOf(states[i + 1], t) && r !in LogOf(states[i], t)
    ensures |EntriesOf(states[i + 1], t)| <= |EntriesOf(states[i], t)|
  {
    StepSeen(states, i, t);
    var a, b := View(states[i], t), View(states[i + 1], t);
    if |b.entries| > |a.entries| {
      var step :| Enabled(a, step) && b == Next(a, step);
      EnteringKeepsLog(a, step);
    }
  }

  // ---- What the model sees ----

  /** The transcript the code carries at a position of the model loop. */
  function Carried(pc: Pc): Option<seq<Message>> {
    match pc
    case Head(v) => Some(v.transcript)
    case Requesting(v) => Some(v.transcript)
    case AwaitingModel(v) => Some(v.transcript)
    case Deciding(v, _) => Some(v.transcript)
    case Calling(site) => Some(site.vars.transcript)
    case Hooking(site, _) => Some(site.vars.transcript)
    case Denying(site, _) => Some(site.vars.transcript)
    case AwaitingApproval(site, _) => Some(site.vars.transcript)
    case Resolved(site, _, _) => Some(site.vars.transcript)
    case Entering(site, _) => Some(site.vars.transcript)
    case Executing(site, _) => Some(site.vars.transcript)
    case Recording(site, _, _) => Some(site.vars.transcript)
    case Settled(site, receipt) => Some(site.After(receipt).vars.transcript)
    case _ => None
  }

  /** The transcript a turn keeps up to date is, everywhere in its loop, what a replay of
      the thread's log would reconstruct. */
  lemma TranscriptIsReplay(states: seq<System>, i: nat, t: ThreadId)
    requires IsSystemRun(states) && i < |states| && Carried(PcOf(states[i], t)).Some?
    ensures Carried(PcOf(states[i], t)).value == Transcript(LogOf(states[i], t))
  {
    SafeAt(states, i, t);
    var th := View(states[i], t);
    CarriedIsCurrent(th.pc, th.log, Read(th.log).value, th.config);
  }

  lemma CarriedIsCurrent(pc: Pc, log: seq<Record>, s: Scan, cfg: Config)
    requires PcFits(pc, log, s, cfg) && Carried(pc).Some?
    ensures Carried(pc).value == Transcript(log)
  {
  }

  /** Whatever the group limit, the window compiled at the head of the model loop is a
      suffix of that transcript cut between groups; every group in it is a user message or
      an assistant message with exactly one receipt for each of its calls, and kept and
      omitted groups together are all groups. */
  lemma ModelSeesWholeExchanges(states: seq<System>, i: nat, t: ThreadId, maximum: nat)
    requires IsSystemRun(states) && i < |states| && PcOf(states[i], t).Head?
    ensures SeesWholeExchanges(PcOf(states[i], t).vars.transcript, LogOf(states[i], t), maximum)
  {
    SafeAt(states, i, t);
    HeadSeesWhole(PcOf(states[i], t).vars, LogOf(states[i], t), maximum);
  }

  ghost predicate SeesWholeExchanges(ms: seq<Message>, log: seq<Record>, maximum: nat) {
    var groups := Groups(ms);
    var omitted := Omitted(|groups|, maximum);
    && AllComplete(groups)
    && Groups(Flatten(groups[omitted..])) == groups[omitted..]
    && |groups[omitted..]| <= maximum
    && ms == Transcript(log) == Flatten(groups[..omitted]) + Flatten(groups[omitted..])
  }

  lemma HeadSeesWhole(v: Vars, log: seq<Record>, maximum: nat)
    requires Legal(log) && FitsLoop(Read(log).value, log, v, Looping)
    ensures SeesWholeExchanges(v.transcript, log, maximum)
  {
    WindowsAreWellFormed(log, maximum);
  }
}
