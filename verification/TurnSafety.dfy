/** The invariant of the turn machine and the safety it gives every run. */
module TurnSafety {
  import opened Wrappers
  import opened Ids
  import opened Protocol
  import opened Policy
  import opened Journal
  import opened LogGrammar
  import opened Recovery
  import opened RecoveredLogs
  import opened TurnMachine

  // ---- Where the holder may be, given what its log says ----

  predicate InLoop(s: Scan, v: Vars) {
    s.open && s.current == v.turn && s.seen == v.seen
  }

  /** The calls from the site's position on, and no others, have no receipt, and all but
      the first of them are untouched. */
  predicate RestAccepted(s: Scan, calls: seq<ToolCall>, index: nat) {
    && index <= |calls|
    && (forall i, j :: 0 <= i < j < |calls| ==> calls[i].id != calls[j].id)
    && s.pending.Keys == CallIds(calls[index..])
    && (forall i :: index <= i < |calls| ==> calls[i].id in s.pending && s.pending[calls[i].id].call == calls[i])
    && (forall i :: index < i < |calls| ==> calls[i].id in s.pending && s.pending[calls[i].id].stage == Accepted)
  }

  predicate At(s: Scan, site: Site, stage: Stage) {
    && site.Valid()
    && InLoop(s, site.vars) && s.phase == Looping
    && RestAccepted(s, site.calls, site.index)
    && s.pending[site.Call().id].stage == stage
  }

  /** The effective grant lets the prepared action run. */
  predicate Granted(config: Config, toolName: string, approved: bool) {
    && toolName in config.tools
    && (config.Capabilities().Grant(toolName) == Allow || (config.Capabilities().Grant(toolName) == Ask && approved))
  }

  /** What is left to append before the turn is over can all be appended. */
  predicate Closable(s: Scan, turn: TurnId, ends: seq<Event>)
    decreases ends
  {
    ends == [] ||
    ((ends[0].ToolReceiptRecorded? ==> ends[0].receipt.status == Denied) &&
     Admits(s, Record(Some(turn), ends[0])) && Closable(Advance(s, Record(Some(turn), ends[0])), turn, ends[1..]))
  }

  predicate Untried(entries: seq<Entry>, k: Key) {
    forall i :: 0 <= i < |entries| ==> entries[i].Key() != k
  }

  predicate LastEntry(
    entries: seq<Entry>, turn: TurnId, p: PreparedToolCall, config: Config, result: Option<ExecResult>)
  {
    entries != [] && entries[|entries| - 1] == Entry(turn, p, config, result)
  }

  /** The transcript the code carries is the one a replay of the log would give. */
  predicate Current(v: Vars, log: seq<Record>) {
    v.transcript == Transcript(log)
  }

  predicate FitsLoop(s: Scan, log: seq<Record>, v: Vars, phase: Phase) {
    InLoop(s, v) && s.phase == phase && s.pending == map[] && Current(v, log)
  }

  predicate FitsDeciding(s: Scan, log: seq<Record>, v: Vars, m: ModelResponse) {
    && InLoop(s, v) && s.phase == AfterResponse(m) && Current(v, log)
    && RestAccepted(s, m.calls, 0) && (m.calls != [] ==> s.pending[m.calls[0].id].stage == Accepted)
  }

  predicate FitsCalling(s: Scan, log: seq<Record>, site: Site) {
    && InLoop(s, site.vars) && s.phase == Looping && Current(site.vars, log)
    && RestAccepted(s, site.calls, site.index)
    && (site.Valid() ==> s.pending[site.Call().id].stage == Accepted)
  }

  /** The call at the site was prepared as `p`, which answers the call and may be granted. */
  predicate FitsPrepared(s: Scan, log: seq<Record>, cfg: Config, site: Site, p: PreparedToolCall, stage: Stage) {
    At(s, site, stage) && Current(site.vars, log) && Matched(cfg, site, p)
  }

  predicate NeedsApproval(cfg: Config, site: Site) {
    site.Valid() && cfg.Capabilities().Grant(site.Call().name) == Ask
  }

  predicate FitsDenying(s: Scan, log: seq<Record>, site: Site, receipt: ToolReceipt) {
    && site.Valid() && InLoop(s, site.vars) && s.phase == Looping && Current(site.vars, log)
    && RestAccepted(s, site.calls, site.index)
    && Fits(s.pending[site.Call().id], receipt) && !s.pending[site.Call().id].stage.Started?
  }

  predicate FitsStarted(s: Scan, log: seq<Record>, cfg: Config, site: Site, p: PreparedToolCall) {
    && p.callId in s.pending && s.pending[p.callId].stage.Started?
    && FitsPrepared(s, log, cfg, site, p, Started(p, s.pending[p.callId].stage.approved))
  }

  predicate FitsEntering(s: Scan, log: seq<Record>, cfg: Config, site: Site, p: PreparedToolCall) {
    FitsStarted(s, log, cfg, site, p) && Granted(cfg, p.action.toolName, s.pending[p.callId].stage.approved)
  }

  predicate FitsSettled(s: Scan, log: seq<Record>, site: Site, receipt: ToolReceipt) {
    && site.Valid() && InLoop(s, site.vars) && s.phase == Looping
    && Current(site.After(receipt).vars, log)
    && RestAccepted(s, site.calls, site.index + 1)
    && (site.index + 1 < |site.calls| ==> s.pending[site.calls[site.index + 1].id].stage == Accepted)
  }

  predicate FitsRecovery(s: Scan, log: seq<Record>, todo: seq<Record>, goal: Goal) {
    s.created && todo == Plan(log) && (goal.RunTurn? ==> goal.turn !in s.begun)
  }

  predicate FitsStarting(s: Scan, turn: TurnId) {
    s.created && !s.open && s.pending == map[] && turn !in s.begun
  }

  predicate FitsGreeting(s: Scan, turn: TurnId) {
    s.open && s.current == turn && s.phase == NeedsUser && s.seen == {} && s.pending == map[]
  }

  predicate PcFits(pc: Pc, log: seq<Record>, s: Scan, cfg: Config) {
    match pc
    case Free => true
    case Checking(_) => s.created
    case Recovering(todo, goal, _) => FitsRecovery(s, log, todo, goal)
    case Starting(turn, _) => FitsStarting(s, turn)
    case Greeting(turn, _) => FitsGreeting(s, turn)
    case Head(v) => FitsLoop(s, log, v, Looping)
    case Requesting(v) => FitsLoop(s, log, v, Compiled)
    case AwaitingModel(v) => FitsLoop(s, log, v, Requested)
    case Deciding(v, m) => FitsDeciding(s, log, v, m)
    case Calling(site) => FitsCalling(s, log, site)
    case Hooking(site, p) => FitsPrepared(s, log, cfg, site, p, Ready(p, false))
    case Denying(site, receipt) => FitsDenying(s, log, site, receipt)
    case AwaitingApproval(site, p) => FitsPrepared(s, log, cfg, site, p, Ready(p, false)) && NeedsApproval(cfg, site)
    case Resolved(site, p, d) =>
      FitsPrepared(s, log, cfg, site, p, Ready(p, d == Approved(p.action))) && NeedsApproval(cfg, site)
    case Entering(site, p) => FitsEntering(s, log, cfg, site, p)
    case Executing(site, p) => FitsStarted(s, log, cfg, site, p)
    case Recording(site, p, _) => FitsStarted(s, log, cfg, site, p)
    case Settled(site, receipt) => FitsSettled(s, log, site, receipt)
    case Closing(turn, ends) => Closable(s, turn, ends)
  }

  /** What the history of executor calls is at the positions around one. */
  predicate EntriesAt(pc: Pc, entries: seq<Entry>, cfg: Config) {
    match pc
    case Entering(site, p) => Untried(entries, Key(site.vars.turn, p.callId))
    case Executing(site, p) => LastEntry(entries, site.vars.turn, p, cfg, None)
    case Recording(site, p, result) => LastEntry(entries, site.vars.turn, p, cfg, Some(result))
    case _ => true
  }

  predicate Matched(cfg: Config, site: Site, p: PreparedToolCall) {
    && site.Valid()
    && p.callId == site.Call().id && p.action.toolName == site.Call().name
    && site.Call().name in cfg.tools && cfg.Capabilities().Grant(site.Call().name) != Deny
  }

  /** Positions before the first append of an activity. */
  predicate Quiet(pc: Pc) {
    pc.Free? || pc.Checking? || pc.Recovering? || pc.Starting?
  }

  // ---- What is true of the history of executor calls ----

  /** The call was registered, its effective grant was not Deny, and under Ask the same
      turn's log holds an approval of exactly the action that ran. */
  predicate Authorized(log: seq<Record>, e: Entry) {
    && e.prepared.action.toolName in e.config.tools
    && e.config.Capabilities().Grant(e.prepared.action.toolName) != Deny
    && (e.config.Capabilities().Grant(e.prepared.action.toolName) == Ask ==>
          Record(Some(e.turn), ApprovalResolved(e.prepared.callId, Approved(e.prepared.action))) in log)
  }

  /** A receipt says of an executor call only what the executor said. */
  predicate Honest(r: ToolReceipt, e: Entry) {
    && r.action == Some(e.prepared.action)
    && r.status != Denied
    && (r.status == Succeeded ==> r.output.Some? && e.result == Some(ExecOk(r.output.value)))
    && (r.status == Failed ==> e.result.Some? && e.result.value.ExecError? && r.error == Some(e.result.value.reason))
    && (r.status == Unknown ==>
          || r.error == Some(StartedWithoutReceipt)
          || (e.result.Some? && e.result.value.ExecUnknown? && r.error == Some(e.result.value.reason)))
  }

  ghost predicate EntryFits(log: seq<Record>, durable: seq<Record>, e: Entry) {
    && Record(Some(e.turn), ToolExecutionStarted(e.prepared)) in log
    && Authorized(log, e)
    && (forall r: ToolReceipt ::
          r.callId == e.prepared.callId && Record(Some(e.turn), ToolReceiptRecorded(r)) in durable ==> Honest(r, e))
  }

  ghost predicate HistoryFits(log: seq<Record>, durable: seq<Record>, entries: seq<Entry>) {
    && (forall i, j :: 0 <= i < j < |entries| ==> entries[i].Key() != entries[j].Key())
    && (forall i :: 0 <= i < |entries| ==> EntryFits(log, durable, entries[i]))
  }

  ghost predicate Inv(th: Thread) {
    && (th.landed != [] ==> th.latched && |th.landed| == 1 && Quiet(th.pc))
    && Legal(th.log)
    && Legal(th.Durable())
    && PcFits(th.pc, th.log, Read(th.log).value, th.config)
    && EntriesAt(th.pc, th.entries, th.config)
    && HistoryFits(th.log, th.Durable(), th.entries)
  }

  // ---- Facts about records ----

  lemma {:induction false} RecordCounts(log: seq<Record>, r: Record, mark: Mark)
    requires r in log && mark.On(r)
    ensures Count(log, mark) >= 1
  {
    var i :| 0 <= i < |log| && log[i] == r;
    CountAt(log, i, |log|, mark);
    assert log[..|log|] == log;
  }

  lemma {:induction false} TwoRecordsCount(log: seq<Record>, a: Record, b: Record, mark: Mark)
    requires a in log && b in log && a != b && mark.On(a) && mark.On(b)
    ensures Count(log, mark) >= 2
  {
    var init, last := log[..|log| - 1], log[|log| - 1];
    assert log == init + [last];
    if last == a {
      RecordCounts(init, b, mark);
    } else if last == b {
      RecordCounts(init, a, mark);
    } else {
      TwoRecordsCount(init, a, b, mark);
    }
  }

  lemma {:induction false} CreatedIsRecorded(log: seq<Record>)
    requires Legal(log) && HasThread(log)
    ensures Read(log).value.created
  {
    var init, last := log[..|log| - 1], log[|log| - 1];
    assert log == init + [last];
    if !last.event.ThreadStarted? {
      var i :| 0 <= i < |log| && log[i].event.ThreadStarted?;
      assert init[i].event.ThreadStarted?;
      CreatedIsRecorded(init);
    }
  }

  lemma {:induction false} BegunIsRecorded(log: seq<Record>, turn: TurnId)
    requires Legal(log) && turn in Read(log).value.begun
    ensures UsesTurn(log, turn)
  {
    var init, last := log[..|log| - 1], log[|log| - 1];
    assert log == init + [last];
    if !(last.event.TurnStarted? && last.turn == Some(turn)) {
      BegunIsRecorded(init, turn);
      var i :| 0 <= i < |init| && init[i].turn == Some(turn);
      assert log[i].turn == Some(turn);
    } else {
      assert log[|log| - 1].turn == Some(turn);
    }
  }

  /** A call the executor was entered for is at stage Started while it has no receipt,
      with the very action that was entered. */
  lemma EnteredIsStarted(log: seq<Record>, e: Entry)
    requires Legal(log) && Record(Some(e.turn), ToolExecutionStarted(e.prepared)) in log
    requires Awaiting(Read(log).value, e.Key())
    ensures Read(log).value.pending[e.prepared.callId].stage.Started?
    ensures Read(log).value.pending[e.prepared.callId].stage.prepared == e.prepared
  {
    var s := Read(log).value;
    var r := Record(Some(e.turn), ToolExecutionStarted(e.prepared));
    LegalLogsTally(log);
    LegalLogsAreEvidenced(log);
    assert KeyTallied(log, s, e.Key());
    RecordCounts(log, r, Starts(e.Key()));
    var slot := s.pending[e.prepared.callId];
    assert StageEvidence(log, s.current, e.prepared.callId, slot);
    if slot.stage.prepared != e.prepared {
      TwoRecordsCount(log, r, Record(Some(s.current), ToolExecutionStarted(slot.stage.prepared)), Starts(e.Key()));
    }
  }

  /** No receipt is recorded for a call that is waiting for one. */
  lemma AwaitingHasNoReceipt(log: seq<Record>, k: Key, r: ToolReceipt)
    requires Legal(log) && Awaiting(Read(log).value, k) && r.callId == k.call
    ensures Record(Some(k.turn), ToolReceiptRecorded(r)) !in log
  {
    LegalLogsTally(log);
    assert KeyTallied(log, Read(log).value, k);
    if Record(Some(k.turn), ToolReceiptRecorded(r)) in log {
      RecordCounts(log, Record(Some(k.turn), ToolReceiptRecorded(r)), Receives(k));
    }
  }

  // ---- Appending ----

  /** A record is honest about every executor call it is a receipt for. */
  ghost predicate Truthful(r: Record, entries: seq<Entry>) {
    forall i :: 0 <= i < |entries| && Receives(entries[i].Key()).On(r) ==> Honest(r.event.receipt, entries[i])
  }

  lemma HistoryGrows(log: seq<Record>, durable: seq<Record>, entries: seq<Entry>, r: Record, log': seq<Record>)
    requires HistoryFits(log, durable, entries) && Truthful(r, entries)
    requires log' == log || log' == log + [r]
    ensures HistoryFits(log', durable + [r], entries)
  {
    forall i | 0 <= i < |entries| ensures EntryFits(log', durable + [r], entries[i]) {
      assert EntryFits(log, durable, entries[i]);
      assert forall x :: x in log ==> x in log';
      forall q: ToolReceipt | q.callId == entries[i].prepared.callId
                              && Record(Some(entries[i].turn), ToolReceiptRecorded(q)) in durable + [r]
        ensures Honest(q, entries[i])
      {
        if Record(Some(entries[i].turn), ToolReceiptRecorded(q)) == r {
          assert Receives(entries[i].Key()).On(r);
        } else {
          assert Record(Some(entries[i].turn), ToolReceiptRecorded(q)) in durable;
        }
      }
    }
  }

  /** An append keeps the invariant, whatever becomes of it. */
  lemma AppendKeepsInv(th: Thread, r: Record, next: Pc, fate: Fate)
    requires Inv(th) && th.landed == []
    requires Admits(Read(th.log).value, r) && Truthful(r, th.entries)
    requires PcFits(next, th.log + [r], Advance(Read(th.log).value, r), th.config)
    requires EntriesAt(next, th.entries, th.config)
    ensures Inv(AppendTo(th, r, next, fate))
  {
    assert th.Durable() == th.log;
    ReadAppend(th.log, r);
    HistoryGrows(th.log, th.log, th.entries, r, th.log + [r]);
    HistoryGrows(th.log, th.log, th.entries, r, th.log);
    var th' := AppendTo(th, r, next, fate);
    if !th.latched {
      match fate {
        case Stored => assert th'.Durable() == th.log + [r];
        case NotTried => assert th'.Durable() == th.log;
        case Lost => assert th'.Durable() == th.log;
        case Landed => assert th'.Durable() == th.log + [r];
      }
    } else {
      assert th'.Durable() == th.log;
    }
  }

  /** While a landed record is waiting for the store to be opened again nothing is appended. */
  lemma RefusedKeepsInv(th: Thread, r: Record, next: Pc, fate: Fate)
    requires Inv(th) && th.landed != []
    ensures Inv(AppendTo(th, r, next, fate))
  {
  }

  lemma NotReceiptIsTruthful(r: Record, entries: seq<Entry>)
    requires !r.event.ToolReceiptRecorded?
    ensures Truthful(r, entries)
  {
  }

  /** A receipt for a call that was never started concerns no executor call. */
  lemma UnstartedIsTruthful(th: Thread, r: Record)
    requires Inv(th) && r.event.ToolReceiptRecorded? && r.turn == Some(Read(th.log).value.current)
    requires r.event.receipt.callId in Read(th.log).value.pending
    requires !Read(th.log).value.pending[r.event.receipt.callId].stage.Started?
    ensures Truthful(r, th.entries)
  {
    forall i | 0 <= i < |th.entries| ensures !Receives(th.entries[i].Key()).On(r) {
      assert EntryFits(th.log, th.Durable(), th.entries[i]);
      if Receives(th.entries[i].Key()).On(r) {
        EnteredIsStarted(th.log, th.entries[i]);
      }
    }
  }

  /** So is a receipt that matches what is known of the started call and claims no outcome. */
  lemma UnknownIsTruthful(th: Thread, r: Record)
    requires Inv(th) && Admits(Read(th.log).value, r) && r.event.ToolReceiptRecorded?
    requires Read(th.log).value.pending[r.event.receipt.callId].stage.Started? ==> r.event.receipt.status == Unknown
    requires r.event.receipt.status == Unknown ==> r.event.receipt.error == Some(StartedWithoutReceipt)
    ensures Truthful(r, th.entries)
  {
    forall i | 0 <= i < |th.entries| && Receives(th.entries[i].Key()).On(r)
      ensures Honest(r.event.receipt, th.entries[i])
    {
      assert EntryFits(th.log, th.Durable(), th.entries[i]);
      EnteredIsStarted(th.log, th.entries[i]);
    }
  }
}
