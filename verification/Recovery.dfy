/** Closing what an interrupted turn left open, without running anything again. */
module Recovery {
  import opened Wrappers
  import opened Ids
  import opened Protocol
  import opened Journal
  import opened Sequences

  /** What one pass over a log collects. */
  datatype Facts = Facts(
    open: set<TurnId>,
    calls: map<Key, ToolCall>,
    prepared: map<Key, PreparedToolCall>,
    started: map<Key, PreparedToolCall>,
    completed: set<Key>)

  const NO_FACTS := Facts({}, map[], map[], map[], {})

  /** Later calls with a key replace earlier ones. */
  function NoteCalls(calls: map<Key, ToolCall>, turn: TurnId, accepted: seq<ToolCall>): map<Key, ToolCall> {
    if accepted == [] then calls else
      var last := accepted[|accepted| - 1];
      NoteCalls(calls, turn, accepted[..|accepted| - 1])[Key(turn, last.id) := last]
  }

  function Note(f: Facts, r: Record): Facts {
    if r.turn == None then f else
    var turn := r.turn.value;
    match r.event
    case TurnStarted => f.(open := f.open + {turn})
    case AssistantMessage(m) => f.(calls := NoteCalls(f.calls, turn, m.calls))
    case ToolPrepared(p) => f.(prepared := f.prepared[Key(turn, p.callId) := p])
    case ToolExecutionStarted(p) => f.(started := f.started[Key(turn, p.callId) := p])
    case ToolReceiptRecorded(receipt) => f.(completed := f.completed + {Key(turn, receipt.callId)})
    case TurnCompleted(_) => f.(open := f.open - {turn})
    case TurnFailed(_) => f.(open := f.open - {turn})
    case TurnCancelled => f.(open := f.open - {turn})
    case _ => f
  }

  function FactsOf(log: seq<Record>): Facts {
    if log == [] then NO_FACTS else Note(FactsOf(log[..|log| - 1]), log[|log| - 1])
  }

  lemma FactsAppend(log: seq<Record>, r: Record)
    ensures FactsOf(log + [r]) == Note(FactsOf(log), r)
  {
    assert (log + [r])[..|log + [r]| - 1] == log;
  }

  function Known(f: Facts): set<Key> {
    f.calls.Keys + f.prepared.Keys + f.started.Keys
  }

  function Outstanding(f: Facts): set<Key> {
    Known(f) - f.completed
  }

  /** What is certain about an unreceipted call decides its receipt. */
  function ReceiptFor(f: Facts, k: Key): ToolReceipt
    requires k in Known(f)
  {
    if k in f.started then UnknownReceipt(f.started[k], StartedWithoutReceipt)
    else if k in f.prepared then FailedReceipt(f.prepared[k], InterruptedBeforeExecution)
    else MalformedReceipt(f.calls[k], InterruptedBeforePreparation)
  }

  function ReceiptRecords(f: Facts, keys: seq<Key>): (rs: seq<Record>)
    requires forall k :: k in keys ==> k in Known(f)
    ensures |rs| == |keys|
  {
    if keys == [] then [] else
      assert forall k :: k in keys[1..] ==> k in keys;
      [ReceiptRecord(f, keys[0])] + ReceiptRecords(f, keys[1..])
  }

  function EndRecords(turns: seq<TurnId>): (rs: seq<Record>)
    ensures |rs| == |turns|
  {
    if turns == [] then [] else [EndRecord(turns[0])] + EndRecords(turns[1..])
  }

  function PlanOf(f: Facts): seq<Record> {
    ReceiptRecords(f, SortedKeys(Outstanding(f))) + EndRecords(SortedTurns(f.open))
  }

  /** The records recovery appends to a log: receipts in key order, then turn ends. */
  function Plan(log: seq<Record>): seq<Record> {
    PlanOf(FactsOf(log))
  }

  // ---- Stopping and starting over ----

  /** Prepared actions and calls are filed under their own call ids. */
  predicate Filed(f: Facts) {
    && (forall k :: k in f.calls ==> f.calls[k].id == k.call)
    && (forall k :: k in f.prepared ==> f.prepared[k].callId == k.call)
    && (forall k :: k in f.started ==> f.started[k].callId == k.call)
  }

  lemma {:induction false} NoteCallsFiled(calls: map<Key, ToolCall>, turn: TurnId, accepted: seq<ToolCall>)
    requires forall k :: k in calls ==> calls[k].id == k.call
    ensures forall k :: k in NoteCalls(calls, turn, accepted) ==> NoteCalls(calls, turn, accepted)[k].id == k.call
  {
    if accepted != [] {
      NoteCallsFiled(calls, turn, accepted[..|accepted| - 1]);
    }
  }

  lemma {:induction false} FactsAreFiled(log: seq<Record>)
    ensures Filed(FactsOf(log))
  {
    if log != [] {
      FactsAreFiled(log[..|log| - 1]);
      NoteFiles(FactsOf(log[..|log| - 1]), log[|log| - 1]);
    }
  }

  lemma NoteFiles(f: Facts, r: Record)
    requires Filed(f)
    ensures Filed(Note(f, r))
  {
    match r.event {
      case AssistantMessage(m) =>
        if r.turn.Some? {
          NoteCallsFiled(f.calls, r.turn.value, m.calls);
        }
      case ToolPrepared(_) =>
      case ToolExecutionStarted(_) =>
      case _ =>
        assert Note(f, r).calls == f.calls && Note(f, r).prepared == f.prepared && Note(f, r).started == f.started;
    }
  }

  lemma {:induction false} ReceiptsIgnoreCompletion(f: Facts, done: set<Key>, keys: seq<Key>)
    requires forall k :: k in keys ==> k in Known(f)
    ensures Known(f.(completed := done)) == Known(f)
    ensures ReceiptRecords(f.(completed := done), keys) == ReceiptRecords(f, keys)
  {
    if keys != [] {
      assert forall k :: k in keys[1..] ==> k in keys;
      ReceiptsIgnoreCompletion(f, done, keys[1..]);
    }
  }

  function ReceiptRecord(f: Facts, k: Key): Record
    requires k in Known(f)
  {
    Record(Some(k.turn), ToolReceiptRecorded(ReceiptFor(f, k)))
  }

  function EndRecord(turn: TurnId): Record {
    Record(Some(turn), TurnFailed(InterruptedAndRecovered))
  }

  lemma ReceiptRecordsOf(f: Facts, key: Key, keys: seq<Key>)
    requires key in Known(f) && forall k :: k in keys ==> k in Known(f)
    ensures ReceiptRecords(f, [key] + keys) == [ReceiptRecord(f, key)] + ReceiptRecords(f, keys)
  {
    HeadAndTail(key, keys);
  }

  lemma EndRecordsOf(turn: TurnId, turns: seq<TurnId>)
    ensures EndRecords([turn] + turns) == [EndRecord(turn)] + EndRecords(turns)
  {
    HeadAndTail(turn, turns);
  }

  lemma AdvanceReceipt(f: Facts) returns (m: Key)
    requires Outstanding(f) != {}
    ensures m in Outstanding(f)
    ensures PlanOf(f) == [ReceiptRecord(f, m)] + PlanOf(f.(completed := f.completed + {m}))
  {
    m := LeastKey(Outstanding(f));
    SortedKeysFrom(Outstanding(f), m);
    var rest := SortedKeys(Outstanding(f) - {m});
    var f' := f.(completed := f.completed + {m});
    assert Outstanding(f') == Outstanding(f) - {m};
    var rs, ends := ReceiptRecords(f, rest), EndRecords(SortedTurns(f.open));
    assert PlanOf(f') == rs + ends by {
      ReceiptsIgnoreCompletion(f, f'.completed, rest);
    }
    ReceiptRecordsOf(f, m, rest);
    Associative([ReceiptRecord(f, m)], rs, ends);
  }

  lemma AdvanceEnd(f: Facts) returns (m: TurnId)
    requires Outstanding(f) == {} && f.open != {}
    ensures m in f.open
    ensures PlanOf(f) == [EndRecord(m)] + PlanOf(f.(open := f.open - {m}))
  {
    m := LeastId(f.open);
    SortedTurnsFrom(f.open, m);
    var rest := SortedTurns(f.open - {m});
    EndRecordsOf(m, rest);
    var f' := f.(open := f.open - {m});
    assert Outstanding(f') == {};
    assert PlanOf(f') == EndRecords(rest);
    assert PlanOf(f) == EndRecords(SortedTurns(f.open));
  }

  /** Once the first record of a plan is in the log, the rest of it is the plan. */
  lemma PlanAdvances(log: seq<Record>)
    requires Plan(log) != []
    ensures Plan(log + [Plan(log)[0]]) == Plan(log)[1..]
  {
    FactsAreFiled(log);
    FactsAppend(log, Plan(log)[0]);
    if Outstanding(FactsOf(log)) != {} {
      ReceiptPlanAdvances(FactsOf(log));
    } else {
      if FactsOf(log).open == {} {
        NothingToDo(FactsOf(log));
      }
      EndPlanAdvances(FactsOf(log));
    }
  }

  lemma NoteReceipt(f: Facts, m: Key)
    requires Filed(f) && m in Known(f)
    ensures Note(f, ReceiptRecord(f, m)) == f.(completed := f.completed + {m})
  {
  }

  lemma ReceiptPlanAdvances(f: Facts)
    requires Filed(f) && Outstanding(f) != {}
    ensures PlanOf(Note(f, PlanOf(f)[0])) == PlanOf(f)[1..]
  {
    var m := AdvanceReceipt(f);
    NoteReceipt(f, m);
    var f' := f.(completed := f.completed + {m});
    assert PlanOf(f)[0] == ReceiptRecord(f, m);
    assert PlanOf(f)[1..] == PlanOf(f');
  }

  lemma NoteEnd(f: Facts, m: TurnId)
    ensures Note(f, EndRecord(m)) == f.(open := f.open - {m})
  {
  }

  lemma EndPlanAdvances(f: Facts)
    requires Outstanding(f) == {} && f.open != {}
    ensures PlanOf(f) != [] && PlanOf(Note(f, PlanOf(f)[0])) == PlanOf(f)[1..]
  {
    var m := AdvanceEnd(f);
    NoteEnd(f, m);
    HeadAndTail(EndRecord(m), PlanOf(f.(open := f.open - {m})));
  }

  lemma NothingToDo(f: Facts)
    requires Outstanding(f) == {} && f.open == {}
    ensures PlanOf(f) == []
  {
    assert |SortedKeys(Outstanding(f))| == 0 && |SortedTurns(f.open)| == 0;
  }

  /** A plan that advances record by record can be taken up after any part of it. */
  lemma {:induction false} Resumes(plan: seq<Record> -> seq<Record>, log: seq<Record>, k: nat)
    requires forall l :: plan(l) != [] ==> plan(l + [plan(l)[0]]) == plan(l)[1..]
    requires k <= |plan(log)|
    ensures plan(log + plan(log)[..k]) == plan(log)[k..]
  {
    if k == 0 {
      assert log + plan(log)[..0] == log;
    } else {
      Resumes(plan, log, k - 1);
      var part := log + plan(log)[..k - 1];
      assert part + [plan(log)[k - 1]] == log + plan(log)[..k];
      assert plan(part)[0] == plan(log)[k - 1];
    }
  }

  /** What every single step of a plan keeps holds wherever the plan is stopped. */
  lemma {:induction false} HoldsAlong(
    plan: seq<Record> -> seq<Record>, inv: seq<Record> -> bool, log: seq<Record>, k: nat)
    requires forall l :: plan(l) != [] ==> plan(l + [plan(l)[0]]) == plan(l)[1..]
    requires forall l :: inv(l) && plan(l) != [] ==> inv(l + [plan(l)[0]])
    requires inv(log) && k <= |plan(log)|
    ensures inv(log + plan(log)[..k])
  {
    if k == 0 {
      assert log + plan(log)[..0] == log;
    } else {
      HoldsAlong(plan, inv, log, k - 1);
      Resumes(plan, log, k - 1);
      var part := log + plan(log)[..k - 1];
      assert part + [plan(log)[k - 1]] == log + plan(log)[..k];
      assert plan(part)[0] == plan(log)[k - 1];
    }
  }

  /** Recovery may stop after any number of its appends: run again, on any log at all,
      it appends exactly what was still missing, in the same order. */
  lemma RecoveryResumes(log: seq<Record>, k: nat)
    requires k <= |Plan(log)|
    ensures Plan(log + Plan(log)[..k]) == Plan(log)[k..]
  {
    forall l | Plan(l) != [] ensures Plan(l + [Plan(l)[0]]) == Plan(l)[1..] {
      PlanAdvances(l);
    }
    Resumes(Plan, log, k);
  }

  /** A finished recovery leaves nothing to recover. */
  lemma RecoveryIsIdempotent(log: seq<Record>)
    ensures Plan(log + Plan(log)) == []
  {
    RecoveryResumes(log, |Plan(log)|);
    assert Plan(log)[..|Plan(log)|] == Plan(log);
  }

  lemma NothingPlanned(log: seq<Record>)
    requires Plan(log) == []
    ensures Outstanding(FactsOf(log)) == {} && FactsOf(log).open == {}
  {
    var f := FactsOf(log);
    assert |SortedKeys(Outstanding(f))| == 0 && |SortedTurns(f.open)| == 0;
  }

  // ---- What the planned receipts claim ----

  /** Which keys a log has execution starts, preparations and receipts for. */
  lemma {:induction false} FactsAreRecords(log: seq<Record>, k: Key)
    ensures k in FactsOf(log).started ==>
              Record(Some(k.turn), ToolExecutionStarted(FactsOf(log).started[k])) in log
    ensures k in FactsOf(log).prepared ==> Record(Some(k.turn), ToolPrepared(FactsOf(log).prepared[k])) in log
    ensures forall p: PreparedToolCall :: Record(Some(k.turn), ToolExecutionStarted(p)) in log && p.callId == k.call
              ==> k in FactsOf(log).started
    ensures forall r: ToolReceipt :: Record(Some(k.turn), ToolReceiptRecorded(r)) in log && r.callId == k.call
              ==> k in FactsOf(log).completed
    ensures k in FactsOf(log).completed ==>
              exists r: ToolReceipt :: r.callId == k.call && Record(Some(k.turn), ToolReceiptRecorded(r)) in log
  {
    if log != [] {
      var init, last := log[..|log| - 1], log[|log| - 1];
      FactsAreRecords(init, k);
      assert log == init + [last];
      if k in FactsOf(init).completed {
        var r: ToolReceipt :| r.callId == k.call && Record(Some(k.turn), ToolReceiptRecorded(r)) in init;
        assert Record(Some(k.turn), ToolReceiptRecorded(r)) in log;
      }
    }
  }

  lemma {:induction false} PlannedRecords(f: Facts, keys: seq<Key>, r: Record)
    requires forall k :: k in keys ==> k in Known(f)
    requires r in ReceiptRecords(f, keys)
    ensures exists k :: k in keys && r == Record(Some(k.turn), ToolReceiptRecorded(ReceiptFor(f, k)))
  {
    assert forall k :: k in keys[1..] ==> k in keys;
    if r != ReceiptRecords(f, keys)[0] {
      PlannedRecords(f, keys[1..], r);
    }
  }

  lemma {:induction false} EndsAreEnds(turns: seq<TurnId>, r: Record)
    requires r in EndRecords(turns)
    ensures r.event == TurnFailed(InterruptedAndRecovered)
  {
    if r != EndRecords(turns)[0] {
      EndsAreEnds(turns[1..], r);
    }
  }

  /** Recovery never claims success or denial. It says Unknown exactly when the log
      shows the call's execution was started, with the action that was started, and
      Failed only when nothing in the log says so; and it never writes a second
      receipt for a call. */
  lemma RecoveredReceiptsAreHonest(log: seq<Record>, r: Record)
    requires r in Plan(log) && r.event.ToolReceiptRecorded?
    ensures r.turn.Some? && (r.event.receipt.status == Unknown || r.event.receipt.status == Failed)
    ensures r.event.receipt.status == Unknown <==>
              exists p: PreparedToolCall :: p.callId == r.event.receipt.callId
                  && Record(r.turn, ToolExecutionStarted(p)) in log
    ensures r.event.receipt.status == Unknown ==>
              exists p: PreparedToolCall :: Record(r.turn, ToolExecutionStarted(p)) in log
                  && r.event.receipt.action == Some(p.action)
    ensures r.event.receipt.status == Unknown ==> r.event.receipt.error == Some(StartedWithoutReceipt)
    ensures forall r': ToolReceipt :: r'.callId == r.event.receipt.callId ==>
        Record(r.turn, ToolReceiptRecorded(r')) !in log
  {
    var f := FactsOf(log);
    FactsAreFiled(log);
    if r in EndRecords(SortedTurns(f.open)) {
      EndsAreEnds(SortedTurns(f.open), r);
    }
    PlannedRecords(f, SortedKeys(Outstanding(f)), r);
    var k :| k in SortedKeys(Outstanding(f)) && r == Record(Some(k.turn), ToolReceiptRecorded(ReceiptFor(f, k)));
    FactsAreRecords(log, k);
    if k in f.started {
      assert Record(r.turn, ToolExecutionStarted(f.started[k])) in log;
    }
  }
}
