/** Recovery on the logs the runtime writes: what its one pass collects is what the
    log's grammar knows, and everything it appends is in order. */
module RecoveredLogs {
  import opened Wrappers
  import opened Ids
  import opened Protocol
  import opened LogGrammar
  import opened Recovery

  ghost predicate SlotCollected(f: Facts, k: Key, slot: Slot) {
    && k in f.calls && f.calls[k] == slot.call
    && match slot.stage
       case Accepted => k !in f.prepared && k !in f.started
       case Ready(p, _) => k in f.prepared && f.prepared[k] == p && k !in f.started
       case Started(p, _) => k in f.started && f.started[k] == p
  }

  /** The collected facts and the acceptor agree about one call. */
  ghost predicate Agree(f: Facts, s: Scan, k: Key) {
    && (k in Known(f) ==> k.turn in s.begun && (k.turn == s.current ==> k.call in s.seen))
    && (k in f.completed ==> k in Known(f))
    && (k in Outstanding(f) <==> Awaiting(s, k))
    && (Awaiting(s, k) ==> SlotCollected(f, k, s.pending[k.call]))
  }

  function OpenTurns(s: Scan): set<TurnId> {
    if s.open then {s.current} else {}
  }

  lemma {:induction false} CallsCollected(calls: map<Key, ToolCall>, turn: TurnId, accepted: seq<ToolCall>, k: Key)
    ensures k.turn != turn || k.call !in CallIds(accepted) ==>
              (k in NoteCalls(calls, turn, accepted) <==> k in calls)
              && (k in calls ==> NoteCalls(calls, turn, accepted)[k] == calls[k])
    ensures k.turn == turn && k.call in CallIds(accepted) ==>
              k in NoteCalls(calls, turn, accepted) && k.call in Slots(accepted)
              && NoteCalls(calls, turn, accepted)[k] == Slots(accepted)[k.call].call
  {
    if accepted != [] {
      var init, last := accepted[..|accepted| - 1], accepted[|accepted| - 1];
      assert accepted == init + [last];
      CallsCollected(calls, turn, init, k);
      assert CallIds(accepted) == CallIds(init) + {last.id};
    }
  }

  lemma {:induction false} LegalLogsAgree(log: seq<Record>, k: Key)
    requires Legal(log)
    ensures Agree(FactsOf(log), Read(log).value, k)
    ensures FactsOf(log).open == OpenTurns(Read(log).value)
  {
    if log != [] {
      var before, r := log[..|log| - 1], log[|log| - 1];
      LegalLogsAgree(before, k);
      LegalLogsTally(before);
      AgreeStep(FactsOf(before), Read(before).value, r, k);
      OpenStep(FactsOf(before), Read(before).value, r);
    }
  }

  lemma OpenStep(f: Facts, s: Scan, r: Record)
    requires Admits(s, r) && f.open == OpenTurns(s)
    ensures Note(f, r).open == OpenTurns(Advance(s, r))
  {
  }

  lemma AgreeStep(f: Facts, s: Scan, r: Record, k: Key)
    requires ScanOrdered(s) && Admits(s, r) && Agree(f, s, k)
    ensures Agree(Note(f, r), Advance(s, r), k)
  {
    if r.event.AssistantMessage? {
      AgreeOnCalls(f, s, r, k);
    } else if r.event.ToolPrepared? || r.event.ToolExecutionStarted? {
      AgreeOnAction(f, s, r, k);
    } else if r.event.ToolReceiptRecorded? {
      AgreeOnReceipt(f, s, r, k);
    } else {
      AgreeOnRest(f, s, r, k);
    }
  }

  lemma AgreeOnCalls(f: Facts, s: Scan, r: Record, k: Key)
    requires r.event.AssistantMessage?
    requires ScanOrdered(s) && Admits(s, r) && Agree(f, s, k)
    ensures Agree(Note(f, r), Advance(s, r), k)
  {
    CallsCollected(f.calls, s.current, r.event.response.calls, k);
  }

  lemma AgreeOnAction(f: Facts, s: Scan, r: Record, k: Key)
    requires r.event.ToolPrepared? || r.event.ToolExecutionStarted?
    requires ScanOrdered(s) && Admits(s, r) && Agree(f, s, k)
    ensures Agree(Note(f, r), Advance(s, r), k)
  {
  }

  lemma AgreeOnReceipt(f: Facts, s: Scan, r: Record, k: Key)
    requires r.event.ToolReceiptRecorded?
    requires ScanOrdered(s) && Admits(s, r) && Agree(f, s, k)
    ensures Agree(Note(f, r), Advance(s, r), k)
  {
  }

  lemma AgreeOnRest(f: Facts, s: Scan, r: Record, k: Key)
    requires !r.event.AssistantMessage? && !r.event.ToolPrepared? && !r.event.ToolExecutionStarted?
    requires !r.event.ToolReceiptRecorded?
    requires ScanOrdered(s) && Admits(s, r) && Agree(f, s, k)
    ensures Agree(Note(f, r), Advance(s, r), k)
  {
    assert Outstanding(Note(f, r)) == Outstanding(f);
  }

  lemma PlannedReceiptAdmitted(log: seq<Record>, f: Facts, s: Scan, m: Key)
    requires ScanOrdered(s) && Evidenced(log, s) && Agree(f, s, m) && m in Outstanding(f)
    ensures Admits(s, ReceiptRecord(f, m))
  {
    assert StageEvidence(log, s.current, m.call, s.pending[m.call]);
    assert Fits(s.pending[m.call], ReceiptFor(f, m));
  }

  /** On a legal log the next record recovery would append is always in order. */
  lemma PlanHeadAdmitted(log: seq<Record>)
    requires Legal(log) && Plan(log) != []
    ensures Admits(Read(log).value, Plan(log)[0])
  {
    var f, s := FactsOf(log), Read(log).value;
    LegalLogsTally(log);
    LegalLogsAreEvidenced(log);
    LegalLogsAgree(log, Key("", ""));
    if Outstanding(f) != {} {
      var m := AdvanceReceipt(f);
      assert Plan(log)[0] == ReceiptRecord(f, m);
      LegalLogsAgree(log, m);
      PlannedReceiptAdmitted(log, f, s, m);
    } else {
      if f.open == {} {
        NothingToDo(f);
      }
      var m := AdvanceEnd(f);
      assert Plan(log)[0] == EndRecord(m);
    }
  }

  lemma RecoveryStepLegal(log: seq<Record>)
    requires Legal(log) && Plan(log) != []
    ensures Legal(log + [Plan(log)[0]])
    ensures Read(log + [Plan(log)[0]]).value.begun == Read(log).value.begun
    ensures Read(log + [Plan(log)[0]]).value.created == Read(log).value.created
  {
    PlanHeadAdmitted(log);
    ReadAppend(log, Plan(log)[0]);
    PlannedKind(log, Plan(log)[0]);
  }

  lemma PlannedKind(log: seq<Record>, r: Record)
    requires r in Plan(log)
    ensures r.event.ToolReceiptRecorded? || r.event.TurnFailed?
  {
    var f := FactsOf(log);
    if r in ReceiptRecords(f, SortedKeys(Outstanding(f))) {
      PlannedRecords(f, SortedKeys(Outstanding(f)), r);
    } else {
      EndsAreEnds(SortedTurns(f.open), r);
    }
  }

  /** A legal log stays legal at every point at which recovery can stop. */
  lemma RecoveryKeepsLogsLegal(log: seq<Record>, k: nat)
    requires Legal(log) && k <= |Plan(log)|
    ensures Legal(log + Plan(log)[..k])
    ensures Read(log + Plan(log)[..k]).value.begun == Read(log).value.begun
    ensures Read(log + Plan(log)[..k]).value.created == Read(log).value.created
  {
    var s := Read(log).value;
    var inv := l => Legal(l) && Read(l).value.begun == s.begun && Read(l).value.created == s.created;
    forall l | Plan(l) != [] ensures Plan(l + [Plan(l)[0]]) == Plan(l)[1..] {
      PlanAdvances(l);
    }
    forall l | inv(l) && Plan(l) != [] ensures inv(l + [Plan(l)[0]]) {
      RecoveryStepLegal(l);
    }
    HoldsAlong(Plan, inv, log, k);
  }

  /** A log recovery has nothing to add to has no open turn and no unreceipted call. */
  lemma NothingPlannedMeansClosed(log: seq<Record>)
    requires Legal(log)
    ensures Plan(log) == [] <==> !Read(log).value.open && Read(log).value.pending == map[]
  {
    var f, s := FactsOf(log), Read(log).value;
    LegalLogsAgree(log, Key("", ""));
    if Plan(log) == [] {
      NothingPlanned(log);
      forall id ensures id !in s.pending {
        LegalLogsAgree(log, KeyIn(s, id));
      }
    } else if s.pending == map[] && !s.open {
      forall k ensures k !in Outstanding(f) {
        LegalLogsAgree(log, k);
      }
      NothingToDo(f);
    }
  }

  /** After a finished recovery every call ever accepted in the thread has exactly one
      receipt, every turn has ended exactly once, and the log is still in order. */
  lemma RecoveryClosesEverything(log: seq<Record>, k: Key, turn: TurnId)
    requires Legal(log)
    ensures Legal(log + Plan(log))
    ensures Count(log + Plan(log), Receives(k)) == Count(log + Plan(log), Accepts(k))
    ensures Count(log + Plan(log), Ends(turn)) == Count(log + Plan(log), Begins(turn))
  {
    var full := log + Plan(log);
    RecoveryKeepsLogsLegal(log, |Plan(log)|);
    assert Plan(log)[..|Plan(log)|] == Plan(log);
    RecoveryIsIdempotent(log);
    NothingPlannedMeansClosed(full);
    LegalLogsTally(full);
    assert KeyTallied(full, Read(full).value, k) && TurnTallied(full, Read(full).value, turn);
  }
}
