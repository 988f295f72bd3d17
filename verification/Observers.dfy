/** What observers are told: durable events only, each at most once and in log order,
    and each exactly once while no append fails. */
module Observers {
  import opened Wrappers
  import opened Ids
  import opened Protocol
  import opened Journal
  import opened Sequences
  import opened TurnMachine
  import opened Runtime
  import opened RuntimeSafety

  /** Where a recovery in progress will publish from, and how much it has recorded. */
  datatype Backlog = NoBacklog | Backlog(before: nat, recorded: nat)

  predicate Below(es: seq<Envelope>, bound: nat) {
    forall i :: 0 <= i < |es| ==> es[i].sequence < bound
  }

  /** What was told of a thread since the process started is a rising selection of its
      events acknowledged since. A recovery in progress keeps back exactly what it has
      recorded; everything else has been told if no append failed. */
  predicate Kept(events: seq<Envelope>, told: seq<Envelope>, t: ThreadId, boot: nat, backlog: Backlog, clean: bool) {
    var heard, logged := EnvelopesOf(told, t, 0), EnvelopesOf(events, t, boot);
    && Numbered(heard) && boot <= NextSequence(events) && Above(heard, boot)
    && (forall i :: 0 <= i < |heard| ==> heard[i] in events)
    && match backlog
       case NoBacklog => clean ==> heard == logged
       case Backlog(before, n) =>
         var kept := EnvelopesOf(events, t, before);
         && before <= NextSequence(events) && Below(heard, before) && |kept| == n && Above(kept, boot)
         && (clean ==> heard + kept == logged)
  }

  predicate Above(es: seq<Envelope>, bound: nat) {
    forall i :: 0 <= i < |es| ==> es[i].sequence >= bound
  }

  /** What was told of it by earlier processes. */
  predicate KeptBefore(events: seq<Envelope>, past: seq<Envelope>, t: ThreadId, boot: nat) {
    var heard := EnvelopesOf(past, t, 0);
    && Numbered(heard) && Below(heard, boot)
    && (forall i :: 0 <= i < |heard| ==> heard[i] in events)
  }

  // ---- Facts about numbered envelopes ----

  lemma {:induction false} EnvelopesFrom(events: seq<Envelope>, t: ThreadId, from: nat)
    ensures forall i :: 0 <= i < |EnvelopesOf(events, t, from)| ==>
              var e := EnvelopesOf(events, t, from)[i]; e in events && e.thread == t && e.sequence >= from
    ensures Numbered(events) ==> Numbered(EnvelopesOf(events, t, from))
  {
    if events != [] {
      var init, last := events[..|events| - 1], events[|events| - 1];
      EnvelopesFrom(init, t, from);
      assert events == init + [last];
      forall i | 0 <= i < |EnvelopesOf(init, t, from)| && Numbered(events)
        ensures EnvelopesOf(init, t, from)[i].sequence < last.sequence
      {
        var j :| 0 <= j < |init| && init[j] == EnvelopesOf(init, t, from)[i];
        assert events[j].sequence < events[|events| - 1].sequence;
      }
    }
  }

  lemma NumberedConcat(a: seq<Envelope>, b: seq<Envelope>, bound: nat)
    requires Numbered(a) && Numbered(b) && Below(a, bound)
    requires forall i :: 0 <= i < |b| ==> b[i].sequence >= bound
    ensures Numbered(a + b)
  {
  }

  lemma NextIsAbove(events: seq<Envelope>)
    requires Numbered(events)
    ensures Below(events, NextSequence(events))
  {
  }

  lemma {:induction false} NoneAbove(events: seq<Envelope>, t: ThreadId, from: nat)
    requires forall i :: 0 <= i < |events| && events[i].thread == t ==> events[i].sequence < from
    ensures EnvelopesOf(events, t, from) == []
  {
    if events != [] {
      NoneAbove(events[..|events| - 1], t, from);
    }
  }

  lemma {:induction false} AllSelected(es: seq<Envelope>, t: ThreadId)
    requires forall i :: 0 <= i < |es| ==> es[i].thread == t
    ensures EnvelopesOf(es, t, 0) == es
  {
    if es != [] {
      AllSelected(es[..|es| - 1], t);
    }
  }

  lemma {:induction false} NoneSelected(es: seq<Envelope>, t: ThreadId)
    requires forall i :: 0 <= i < |es| ==> es[i].thread != t
    ensures EnvelopesOf(es, t, 0) == []
  {
    if es != [] {
      NoneSelected(es[..|es| - 1], t);
    }
  }

  lemma {:induction false} EnvelopesConcat(a: seq<Envelope>, b: seq<Envelope>, t: ThreadId, from: nat)
    ensures EnvelopesOf(a + b, t, from) == EnvelopesOf(a, t, from) + EnvelopesOf(b, t, from)
  {
    if b == [] {
      assert a + b == a;
    } else {
      var last := b[|b| - 1];
      EnvelopesConcat(a, b[..|b| - 1], t, from);
      assert (a + b)[..|a + b| - 1] == a + b[..|b| - 1];
      Associative(EnvelopesOf(a, t, from), EnvelopesOf(b[..|b| - 1], t, from),
        if last.thread == t && last.sequence >= from then [last] else []);
    }
  }

  // ---- How each kind of change keeps it ----

  predicate Extends(events: seq<Envelope>, e: Envelope) {
    e.sequence == NextSequence(events)
  }

  lemma HeardGrows(events: seq<Envelope>, heard: seq<Envelope>, boot: nat, e: Envelope)
    requires Numbered(events) && Extends(events, e) && Numbered(heard) && boot <= NextSequence(events)
        && Above(heard, boot)
    requires forall i :: 0 <= i < |heard| ==> heard[i] in events
    ensures Numbered(heard + [e]) && Above(heard + [e], boot) && boot <= NextSequence(events + [e])
    ensures forall i :: 0 <= i < |heard + [e]| ==> (heard + [e])[i] in events + [e]
  {
    NextIsAbove(events);
  }

  /** An event told as it is appended. */
  lemma ToldAppend(events: seq<Envelope>, told: seq<Envelope>, t: ThreadId, boot: nat, clean: bool, e: Envelope)
    requires Numbered(events) && Extends(events, e) && e.thread == t
    requires Kept(events, told, t, boot, NoBacklog, clean)
    ensures Kept(events + [e], told + [e], t, boot, NoBacklog, clean)
  {
    EnvelopesAppend(events, e, t, boot);
    EnvelopesAppend(told, e, t, 0);
    HeardGrows(events, EnvelopesOf(told, t, 0), boot, e);
  }

  /** An event a recovery records without telling it yet. */
  lemma KeptBackAppend(
    events: seq<Envelope>, told: seq<Envelope>, t: ThreadId, boot: nat, before: nat, n: nat, clean: bool, e: Envelope)
    requires Numbered(events) && Extends(events, e) && e.thread == t
    requires Kept(events, told, t, boot, Backlog(before, n), clean)
    ensures Kept(events + [e], told, t, boot, Backlog(before, n + 1), clean)
  {
    EnvelopesAppend(events, e, t, boot);
    EnvelopesAppend(events, e, t, before);
    Associative(EnvelopesOf(told, t, 0), EnvelopesOf(events, t, before), [e]);
    assert forall x :: x in events ==> x in events + [e];
  }

  /** Appends and announcements of other threads. */
  lemma OthersSelect(
    events: seq<Envelope>, told: seq<Envelope>, t: ThreadId, from: nat, es: seq<Envelope>, ts: seq<Envelope>)
    requires |es| <= 1
    requires forall i :: 0 <= i < |es| ==> es[i].thread != t
    requires forall i :: 0 <= i < |ts| ==> ts[i].thread != t
    ensures EnvelopesOf(events + es, t, from) == EnvelopesOf(events, t, from)
    ensures EnvelopesOf(told + ts, t, 0) == EnvelopesOf(told, t, 0)
  {
    EnvelopesConcat(told, ts, t, 0);
    NoneSelected(ts, t);
    if es == [] {
      assert events + es == events;
    } else {
      assert es == [es[0]];
      EnvelopesAppend(events, es[0], t, from);
    }
  }

  lemma NextStaysAbove(events: seq<Envelope>, es: seq<Envelope>)
    requires |es| <= 1 && (es != [] ==> Extends(events, es[0]))
    ensures NextSequence(events) <= NextSequence(events + es)
  {
    assert es == [] ==> events + es == events;
  }

  lemma OthersAppend(
    events: seq<Envelope>, told: seq<Envelope>, t: ThreadId, boot: nat, backlog: Backlog, clean: bool,
    es: seq<Envelope>, ts: seq<Envelope>)
    requires |es| <= 1 && (es != [] ==> Extends(events, es[0]))
    requires forall i :: 0 <= i < |es| ==> es[i].thread != t
    requires forall i :: 0 <= i < |ts| ==> ts[i].thread != t
    requires Kept(events, told, t, boot, backlog, clean)
    ensures Kept(events + es, told + ts, t, boot, backlog, clean)
  {
    OthersSelect(events, told, t, boot, es, ts);
    OthersSelect(events, told, t, if backlog.Backlog? then backlog.before else 0, es, ts);
    NextStaysAbove(events, es);
    assert forall x :: x in events ==> x in events + es;
  }

  /** A recovery begins: nothing is kept back yet. */
  lemma BacklogOpens(events: seq<Envelope>, told: seq<Envelope>, t: ThreadId, boot: nat, clean: bool)
    requires Numbered(events) && Kept(events, told, t, boot, NoBacklog, clean)
    ensures Kept(events, told, t, boot, Backlog(NextSequence(EnvelopesOf(events, t, 0)), 0), clean)
  {
    var logged, heard := EnvelopesOf(events, t, 0), EnvelopesOf(told, t, 0);
    var before := NextSequence(logged);
    EnvelopesFrom(events, t, 0);
    EnvelopesFrom(told, t, 0);
    NextIsAbove(logged);
    NextIsAbove(events);
    forall e | e in events && e.thread == t ensures e in logged && e.sequence < before {
      SelectsAll(events, t, e);
      var i :| 0 <= i < |logged| && logged[i] == e;
    }
    forall i | 0 <= i < |heard| ensures heard[i].sequence < before {
      assert heard[i] in events;
    }
    NoneAbove(events, t, before);
    assert heard + [] == heard;
  }

  lemma {:induction false} SelectsAll(events: seq<Envelope>, t: ThreadId, e: Envelope)
    requires e in events && e.thread == t
    ensures e in EnvelopesOf(events, t, 0)
  {
    var init, last := events[..|events| - 1], events[|events| - 1];
    assert events == init + [last];
    if e != last {
      SelectsAll(init, t, e);
    }
  }

  lemma PublishedAreLogged(heard: seq<Envelope>, kept: seq<Envelope>, events: seq<Envelope>)
    requires forall i :: 0 <= i < |heard| ==> heard[i] in events
    requires forall i :: 0 <= i < |kept| ==> kept[i] in events
    ensures forall i :: 0 <= i < |heard + kept| ==> (heard + kept)[i] in events
  {
  }

  /** A recovery is done and publishes what it kept back. */
  lemma BacklogPublished(
    events: seq<Envelope>, told: seq<Envelope>, t: ThreadId, boot: nat, before: nat, n: nat, clean: bool)
    requires Numbered(events) && Kept(events, told, t, boot, Backlog(before, n), clean)
    ensures Kept(events, told + EnvelopesOf(events, t, before), t, boot, NoBacklog, clean)
  {
    var kept, heard := EnvelopesOf(events, t, before), EnvelopesOf(told, t, 0);
    EnvelopesFrom(events, t, before);
    AllSelected(kept, t);
    EnvelopesConcat(told, kept, t, 0);
    NumberedConcat(heard, kept, before);
    PublishedAreLogged(heard, kept, events);
  }

  /** A process stops and another one starts: nothing is told yet of a log that only holds
      what was there before. */
  lemma Restarted(
    events: seq<Envelope>, past: seq<Envelope>, told: seq<Envelope>, t: ThreadId, boot: nat, backlog: Backlog,
    clean: bool,
    landed: seq<Envelope>)
    requires Kept(events, told, t, boot, backlog, clean) && KeptBefore(events, past, t, boot)
    requires Numbered(events + landed)
    ensures Kept(events + landed, [], t, NextSequence(events + landed), NoBacklog, true)
    ensures KeptBefore(events + landed, past + told, t, NextSequence(events + landed))
  {
    var all := events + landed;
    NextIsAbove(all);
    NoneAbove(all, t, NextSequence(all));
    EnvelopesConcat(past, told, t, 0);
    NumberedConcat(EnvelopesOf(past, t, 0), EnvelopesOf(told, t, 0), boot);
    PublishedAreLogged(EnvelopesOf(past, t, 0), EnvelopesOf(told, t, 0), events);
    assert forall x :: x in events ==> x in all;
  }

  // ---- The system ----

  function BacklogOf(holder: Option<Task>): Backlog {
    if holder.Some? && holder.value.pc.Recovering? then Backlog(holder.value.before, holder.value.pc.recorded)
    else NoBacklog
  }

  ghost predicate Observed(sys: System) {
    && Exclusive(sys) && Latching(sys)
    && NumberedStore(sys.store)
    && (forall t :: ObservedThread(sys, t))
    && (forall t :: Remembered(sys, t))
  }

  ghost predicate ObservedThread(sys: System, t: ThreadId) {
    Kept(sys.store.events, sys.told, t, sys.boot, BacklogOf(HolderOf(sys, t)), sys.faults == 0)
  }

  predicate Remembered(sys: System, t: ThreadId) {
    KeptBefore(sys.store.events, sys.past, t, sys.boot)
  }

  lemma SameTasksSameHolder(a: System, b: System, t: ThreadId)
    requires Exclusive(a) && Exclusive(b) && b.tasks == a.tasks
    ensures HolderOf(a, t) == HolderOf(b, t)
  {
    assert forall k :: Holds(b, k, t) <==> Holds(a, k, t);
    SamePc(a, b, t);
  }

  /** What an append by a task changes, for every thread. */
  lemma AppendResult(sys: System, id: nat, action: Action, fate: Fate, t: ThreadId)
    requires Exclusive(sys) && id in sys.tasks && sys.tasks[id].held && action.Append?
    ensures var sys', task, ok := Carry(sys, id, action, fate), sys.tasks[id], Acknowledged(sys.store, fate);
            var next := if ok then action.next else Free;
            var e := Envelope(NextSequence(sys.store.events), task.thread, action.record);
            && sys'.store == Write(sys.store, task.thread, action.record, fate)
            && sys'.boot == sys.boot && sys'.told == sys.told + (if ok && !task.pc.Recovering? then [e] else [])
            && sys'.faults == sys.faults + (if ok then 0 else 1)
            && HolderOf(sys', t) == (if t != task.thread then HolderOf(sys, t)
                                     else if next == Free then None else Some(task.(pc := next)))
            && (t == task.thread ==> HolderOf(sys, t) == Some(task))
  {
    var u := sys.tasks[id].thread;
    assert Holds(sys, id, u);
    PcOfHolder(sys, id, u);
    CarrySplits(sys, id, action, fate);
    var mid := Effect(sys, id, action, fate);
    SameTasksExclusive(sys, mid);
    MoveToView(mid, id, Onward(sys, action, fate), t);
    SameTasksSameHolder(sys, mid, t);
  }

  lemma ObservedAs(sys: System, t: ThreadId, events: seq<Envelope>, told: seq<Envelope>, backlog: Backlog, clean: bool)
    requires Kept(events, told, t, sys.boot, backlog, clean)
    requires sys.store.events == events && sys.told == told && BacklogOf(HolderOf(sys, t)) == backlog
        && (sys.faults == 0) == clean
    ensures ObservedThread(sys, t)
  {
  }

  lemma OwnAppendObserved(sys: System, id: nat, action: Action, fate: Fate)
    requires Observed(sys) && id in sys.tasks && sys.tasks[id].held && action.Append? && Acknowledged(sys.store, fate)
    requires sys.tasks[id].pc.Recovering? ==>
        action.next.Recovering? && action.next.recorded == sys.tasks[id].pc.recorded + 1
    requires !sys.tasks[id].pc.Recovering? ==> !action.next.Recovering?
    ensures ObservedThread(Carry(sys, id, action, fate), sys.tasks[id].thread)
  {
    var task, events, told, clean := sys.tasks[id], sys.store.events, sys.told, sys.faults == 0;
    var t := task.thread;
    var e, sys' := Envelope(NextSequence(events), t, action.record), Carry(sys, id, action, fate);
    AppendResult(sys, id, action, fate, t);
    assert ObservedThread(sys, t);
    assert told + [] == told;
    if task.pc.Recovering? {
      KeptBackAppend(events, told, t, sys.boot, task.before, task.pc.recorded, clean, e);
      ObservedAs(sys', t, events + [e], told, Backlog(task.before, task.pc.recorded + 1), clean);
    } else {
      ToldAppend(events, told, t, sys.boot, clean, e);
      ObservedAs(sys', t, events + [e], told + [e], NoBacklog, clean);
    }
  }

  lemma OthersAppendObserved(sys: System, id: nat, action: Action, fate: Fate, t: ThreadId)
    requires Observed(sys) && id in sys.tasks && sys.tasks[id].held && action.Append? && Acknowledged(sys.store, fate)
    requires t != sys.tasks[id].thread
    ensures ObservedThread(Carry(sys, id, action, fate), t)
  {
    var task, events, told, clean := sys.tasks[id], sys.store.events, sys.told, sys.faults == 0;
    var e, backlog := Envelope(NextSequence(events), task.thread, action.record), BacklogOf(HolderOf(sys, t));
    var tell := if task.pc.Recovering? then [] else [e];
    AppendResult(sys, id, action, fate, t);
    assert ObservedThread(sys, t);
    OthersAppend(events, told, t, sys.boot, backlog, clean, [e], tell);
    ObservedAs(Carry(sys, id, action, fate), t, events + [e], told + tell, backlog, clean);
  }

  /** An append by the thread's holder, or by another thread, whatever becomes of it. */
  lemma AppendObserved(sys: System, id: nat, action: Action, fate: Fate, t: ThreadId)
    requires Observed(sys) && id in sys.tasks && sys.tasks[id].held && action.Append?
    requires sys.tasks[id].pc.Recovering? ==>
        action.next.Recovering? && action.next.recorded == sys.tasks[id].pc.recorded + 1
    requires !sys.tasks[id].pc.Recovering? ==> !action.next.Recovering?
    ensures ObservedThread(Carry(sys, id, action, fate), t)
  {
    if !Acknowledged(sys.store, fate) {
      AppendResult(sys, id, action, fate, t);
      assert ObservedThread(sys, t) && sys.told + [] == sys.told;
      FailedAppendObserved(sys, Carry(sys, id, action, fate), t);
    } else if t != sys.tasks[id].thread {
      OthersAppendObserved(sys, id, action, fate, t);
    } else {
      OwnAppendObserved(sys, id, action, fate);
    }
  }

  lemma FailedAppendObserved(sys: System, sys': System, t: ThreadId)
    requires ObservedThread(sys, t)
    requires sys'.store.events == sys.store.events && sys'.told == sys.told + [] && sys'.boot == sys.boot
        && sys'.faults > 0
    requires BacklogOf(HolderOf(sys', t)) == BacklogOf(HolderOf(sys, t)) || BacklogOf(HolderOf(sys', t)) == NoBacklog
    ensures ObservedThread(sys', t)
  {
    assert sys.told + [] == sys.told;
  }

  /** Leaving a position without an append; a finished recovery publishes on leaving. */
  lemma GotoObserved(sys: System, id: nat, action: Action, fate: Fate, t: ThreadId)
    requires Observed(sys) && id in sys.tasks && sys.tasks[id].held && !action.Append? && !action.next.Recovering?
    requires sys.tasks[id].pc.Recovering? ==> action.Goto?
    ensures ObservedThread(Carry(sys, id, action, fate), t)
  {
    var task := sys.tasks[id];
    var u, events := task.thread, sys.store.events;
    assert Holds(sys, id, u);
    PcOfHolder(sys, id, u);
    CarrySplits(sys, id, action, fate);
    var mid := Effect(sys, id, action, fate);
    SameTasksExclusive(sys, mid);
    MoveToView(mid, id, Onward(sys, action, fate), t);
    SameTasksSameHolder(sys, mid, t);
    assert ObservedThread(sys, t);
    assert sys.told + [] == sys.told && events + [] == events;
    if task.pc.Recovering? && t == u {
      BacklogPublished(events, sys.told, t, sys.boot, task.before, task.pc.recorded, sys.faults == 0);
      assert task.pc.recorded == 0 ==> EnvelopesOf(events, t, task.before) == [];
    } else if action.Goto? && t != u {
      EnvelopesFrom(events, u, task.before);
      OthersAppend(events, sys.told, t, sys.boot, BacklogOf(HolderOf(sys, t)), sys.faults == 0, [], Published(sys, id));
    }
  }

  lemma LoadObserved(sys: System, id: nat, action: Action, fate: Fate, t: ThreadId)
    requires Observed(sys) && id in sys.tasks && sys.tasks[id].held && !sys.tasks[id].pc.Recovering?
    requires Loads(action) && action.next.recorded == 0
    ensures ObservedThread(Carry(sys, id, action, fate), t)
  {
    var u := sys.tasks[id].thread;
    var sys' := Carry(sys, id, action, fate);
    assert Holds(sys, id, u);
    PcOfHolder(sys, id, u);
    CarryKeepsExclusive(sys, id, action, fate);
    assert forall k, x :: Holds(sys', k, x) <==> Holds(sys, k, x);
    assert ObservedThread(sys, t);
    if t == u {
      assert Holds(sys', id, u);
      PcOfHolder(sys', id, u);
      BacklogOpens(sys.store.events, sys.told, t, sys.boot, sys.faults == 0);
    } else {
      SamePc(sys, sys', t);
    }
  }

  lemma ContinueObserved(sys: System, id: nat, choice: Choice, fate: Fate, t: ThreadId)
    requires Observed(sys) && MoveEnabled(sys, Continue(id, choice, fate))
    ensures ObservedThread(After(sys, Continue(id, choice, fate)), t)
  {
    var task := sys.tasks[id];
    var action := Program(sys.config, LogOf(sys, task.thread), task.pc, choice).value;
    if action.Append? {
      AppendObserved(sys, id, action, fate, t);
    } else if Loads(action) {
      LoadObserved(sys, id, action, fate, t);
    } else {
      GotoObserved(sys, id, action, fate, t);
    }
  }

  lemma NobodyHoldsUnknown(sys: System, t: ThreadId)
    requires Exclusive(sys) && t !in sys.active
    ensures HolderOf(sys, t) == None && PcOf(sys, t) == Free
  {
    forall k ensures !Holds(sys, k, t) {
    }
    PcOfNobody(sys, t);
  }

  lemma StartKeepsHolders(sys: System, started: ThreadId, fate: Fate, t: ThreadId)
    requires Exclusive(sys) && MoveEnabled(sys, StartThread(started, fate))
    ensures HolderOf(After(sys, StartThread(started, fate)), t) == HolderOf(sys, t)
    ensures HolderOf(sys, started) == None
  {
    var sys' := After(sys, StartThread(started, fate));
    SameTasksExclusive(sys, sys');
    SameTasksSameHolder(sys, sys', t);
    NobodyHoldsUnknown(sys, started);
  }

  lemma StartResult(sys: System, started: ThreadId, fate: Fate)
    requires MoveEnabled(sys, StartThread(started, fate))
    ensures var sys' := After(sys, StartThread(started, fate));
            var e := Envelope(NextSequence(sys.store.events), started, Record(None, ThreadStarted));
            var told := if Acknowledged(sys.store, fate) then [e] else [];
            && sys'.boot == sys.boot && sys'.store.events == sys.store.events + told && sys'.told == sys.told + told
            && if Acknowledged(sys.store, fate) then sys'.faults == sys.faults else sys'.faults > 0
  {
  }

  lemma StartObserved(sys: System, started: ThreadId, fate: Fate, t: ThreadId)
    requires Observed(sys) && MoveEnabled(sys, StartThread(started, fate))
    ensures ObservedThread(After(sys, StartThread(started, fate)), t)
  {
    var sys' := After(sys, StartThread(started, fate));
    var events, told, clean := sys.store.events, sys.told, sys.faults == 0;
    var backlog := BacklogOf(HolderOf(sys, t));
    var e := Envelope(NextSequence(events), started, Record(None, ThreadStarted));
    StartKeepsHolders(sys, started, fate, t);
    StartResult(sys, started, fate);
    assert ObservedThread(sys, t);
    if !Acknowledged(sys.store, fate) {
      FaultObserved(events, told, t, sys.boot, backlog, clean);
      ObservedAs(sys', t, events, told, backlog, false);
    } else if t == started {
      ToldAppend(events, told, t, sys.boot, clean, e);
      ObservedAs(sys', t, events + [e], told + [e], NoBacklog, clean);
    } else {
      OthersAppend(events, told, t, sys.boot, backlog, clean, [e], [e]);
      ObservedAs(sys', t, events + [e], told + [e], backlog, clean);
    }
  }

  lemma FaultObserved(events: seq<Envelope>, told: seq<Envelope>, t: ThreadId, boot: nat, backlog: Backlog, clean: bool)
    requires Kept(events, told, t, boot, backlog, clean)
    ensures Kept(events, told, t, boot, backlog, false)
  {
  }

  /** Requests, acquisitions and dropped futures leave a backlog where it was. */
  lemma HandoverObserved(sys: System, move: Move, t: ThreadId)
    requires Observed(sys) && MoveEnabled(sys, move) && (move.Request? || move.Acquire? || move.Abandon?)
    ensures ObservedThread(After(sys, move), t)
  {
    assert ObservedThread(sys, t);
    SameBacklog(sys, move, t);
  }

  lemma SameBacklog(sys: System, move: Move, t: ThreadId)
    requires Exclusive(sys) && MoveEnabled(sys, move) && (move.Request? || move.Acquire? || move.Abandon?)
    ensures BacklogOf(HolderOf(After(sys, move), t)) == BacklogOf(HolderOf(sys, t))
  {
    var sys', id := After(sys, move), move.id;
    MovesKeepExclusive(sys, move);
    assert forall k :: k != id ==> (Holds(sys', k, t) <==> Holds(sys, k, t));
    if k :| k != id && Holds(sys, k, t) {
      PcOfHolder(sys, k, t);
      PcOfHolder(sys', k, t);
    } else {
      if Holds(sys', id, t) {
        PcOfHolder(sys', id, t);
      } else {
        PcOfNobody(sys', t);
      }
      if Holds(sys, id, t) {
        PcOfHolder(sys, id, t);
      } else {
        PcOfNobody(sys, t);
      }
    }
  }

  predicate NumberedStore(store: Store) {
    && Numbered(store.events)
    && (store.landed != [] ==> |store.landed| == 1 && Extends(store.events, store.landed[0]))
  }

  lemma WriteNumbered(store: Store, u: ThreadId, r: Record, fate: Fate)
    requires NumberedStore(store) && (store.landed != [] ==> store.latched)
    ensures NumberedStore(Write(store, u, r, fate))
  {
    NextIsAbove(store.events);
  }

  lemma NumberedStays(sys: System, move: Move)
    requires Observed(sys) && MoveEnabled(sys, move)
    ensures NumberedStore(After(sys, move).store)
  {
    match move {
      case StartThread(t, fate) => WriteNumbered(sys.store, t, Record(None, ThreadStarted), fate);
      case Continue(id, choice, fate) =>
        var task := sys.tasks[id];
        var action := Program(sys.config, LogOf(sys, task.thread), task.pc, choice).value;
        CarrySplits(sys, id, action, fate);
        if action.Append? {
          WriteNumbered(sys.store, task.thread, action.record, fate);
        }
      case Crash(_) =>
        NextIsAbove(sys.store.events);
      case _ =>
    }
  }

  lemma RestartObserved(sys: System, move: Move, t: ThreadId)
    requires Observed(sys) && MoveEnabled(sys, move) && move.Crash? && Numbered(sys.store.events + sys.store.landed)
    ensures ObservedThread(After(sys, move), t) && Remembered(After(sys, move), t)
  {
    assert ObservedThread(sys, t) && Remembered(sys, t);
    PcOfNobody(After(sys, move), t);
    Restarted(sys.store.events, sys.past, sys.told, t, sys.boot, BacklogOf(HolderOf(sys, t)), sys.faults == 0,
      sys.store.landed);
  }

  /** The same process is still running: what was told before it stays, its log only grows. */
  predicate SameStretch(a: System, b: System) {
    && b.past == a.past && b.boot == a.boot && a.told <= b.told && a.faults <= b.faults
    && a.store.events <= b.store.events
  }

  lemma EffectKeepsStretch(sys: System, id: nat, action: Action, fate: Fate)
    requires id in sys.tasks
    ensures SameStretch(sys, Effect(sys, id, action, fate))
  {
  }

  lemma CarryKeepsStretch(sys: System, id: nat, action: Action, fate: Fate)
    requires id in sys.tasks
    ensures SameStretch(sys, Carry(sys, id, action, fate))
  {
    CarrySplits(sys, id, action, fate);
    EffectKeepsStretch(sys, id, action, fate);
  }

  /** A restart begins a new stretch: all it finds in the log is below its `boot`, and
      nothing has been told yet. Every other move stays within the stretch. */
  lemma StretchesBeginAtRestarts(sys: System, move: Move)
    requires NumberedStore(sys.store) && MoveEnabled(sys, move)
    ensures var sys' := After(sys, move);
            if move.Crash? then
              sys'.store.events == sys.store.events + sys.store.landed && Below(sys'.store.events, sys'.boot)
              && sys'.past == sys.past + sys.told && sys'.told == [] && sys'.faults == 0
            else SameStretch(sys, sys')
  {
    if move.Crash? {
      NextIsAbove(After(sys, move).store.events);
    } else if move.Continue? {
      var task := sys.tasks[move.id];
      CarryKeepsStretch(sys, move.id, Program(sys.config, LogOf(sys, task.thread), task.pc, move.choice).value,
          move.fate);
    }
  }

  lemma RunningOnRemembers(sys: System, sys': System, t: ThreadId)
    requires Remembered(sys, t) && SameStretch(sys, sys')
    ensures Remembered(sys', t)
  {
    assert forall x :: x in sys.store.events ==> x in sys'.store.events;
  }

  lemma MovesKeepObserved(sys: System, move: Move)
    requires Observed(sys) && MoveEnabled(sys, move)
    ensures Observed(After(sys, move))
  {
    MovesKeepExclusive(sys, move);
    LatchStays(sys, move);
    NumberedStays(sys, move);
    StretchesBeginAtRestarts(sys, move);
    var sys' := After(sys, move);
    forall t ensures ObservedThread(sys', t) && Remembered(sys', t) {
      if !move.Crash? {
        RunningOnRemembers(sys, sys', t);
      }
      match move {
        case StartThread(started, fate) => StartObserved(sys, started, fate, t);
        case Continue(id, choice, fate) => ContinueObserved(sys, id, choice, fate, t);
        case Crash(_) =>
          RestartObserved(sys, move, t);
        case _ => HandoverObserved(sys, move, t);
      }
    }
  }

  lemma {:induction false} RunsAreObserved(states: seq<System>, i: nat)
    requires IsSystemRun(states) && i < |states|
    ensures Observed(states[i])
  {
    if i == 0 {
      forall t ensures ObservedThread(states[0], t) && Remembered(states[0], t) {
        PcOfNobody(states[0], t);
      }
    } else {
      RunsAreObserved(states, i - 1);
      assert Moves(states[i - 1], states[i - 1 + 1]);
      var move :| MoveEnabled(states[i - 1], move) && states[i] == After(states[i - 1], move);
      MovesKeepObserved(states[i - 1], move);
    }
  }

  /** In every state of every run: all that observers were ever told of a thread was
      acknowledged as durable before, and was told at most once and in log order, over all
      restarts. Since the last restart, if no append has failed since, they have been told
      of every event of the thread recorded since exactly once, except for what a recovery
      of it still in progress has recorded and publishes when it is done. */
  lemma ObserversHearTheLog(states: seq<System>, i: nat, t: ThreadId)
    requires IsSystemRun(states) && i < |states|
    ensures var sys := states[i];
            var heard, since := EnvelopesOf(sys.told, t, 0), EnvelopesOf(sys.store.events, t, sys.boot);
            var all := EnvelopesOf(sys.past + sys.told, t, 0);
            && (forall a, b :: 0 <= a < b < |all| ==> all[a].sequence < all[b].sequence)
            && (forall a :: 0 <= a < |all| ==> all[a] in EnvelopesOf(sys.store.events, t, 0))
            && (sys.faults == 0 && !PcOf(sys, t).Recovering? ==> heard == since)
            && (sys.faults == 0 && PcOf(sys, t).Recovering? ==>
                  |since| == |heard| + PcOf(sys, t).recorded && heard == since[..|heard|])
  {
    RunsAreObserved(states, i);
    var sys := states[i];
    assert ObservedThread(sys, t) && Remembered(sys, t);
    var past, heard := EnvelopesOf(sys.past, t, 0), EnvelopesOf(sys.told, t, 0);
    EnvelopesConcat(sys.past, sys.told, t, 0);
    NumberedConcat(past, heard, sys.boot);
    EnvelopesFrom(sys.past + sys.told, t, 0);
    PublishedAreLogged(past, heard, sys.store.events);
    forall a | 0 <= a < |past + heard| ensures (past + heard)[a] in EnvelopesOf(sys.store.events, t, 0) {
      SelectsAll(sys.store.events, t, (past + heard)[a]);
    }
  }
}
