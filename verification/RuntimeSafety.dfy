/** Interleaving changes nothing: seen from any one thread, every move of the system is
    one step of the turn machine or no step at all, so all threads keep its invariant. */
module RuntimeSafety {
  import opened Wrappers
  import opened Ids
  import opened Protocol
  import opened Journal
  import opened TurnMachine
  import opened TurnSafety
  import opened TurnSteps
  import opened Runtime

  // ---- The guard ----

  lemma MoveToKeepsExclusive(sys: System, id: nat, next: Pc)
    requires Exclusive(sys) && id in sys.tasks && sys.tasks[id].held
    ensures Exclusive(MoveTo(sys, id, next))
  {
    var sys' := MoveTo(sys, id, next);
    var u := sys.tasks[id].thread;
    assert Holds(sys, id, u);
    assert forall k, t :: Holds(sys', k, t) ==> Holds(sys, k, t);
    forall t | t in sys'.active ensures exists k :: Holds(sys', k, t) {
      var k :| Holds(sys, k, t);
      assert Holds(sys', k, t);
    }
  }

  lemma AbandonKeepsExclusive(sys: System, id: nat)
    requires Exclusive(sys) && id in sys.tasks
    ensures Exclusive(WithoutTask(sys, id))
  {
    var sys' := WithoutTask(sys, id);
    assert Holds(sys, id, sys.tasks[id].thread) <==> sys.tasks[id].held;
    assert forall k, t :: Holds(sys', k, t) ==> Holds(sys, k, t);
    forall t | t in sys'.active ensures exists k :: Holds(sys', k, t) {
      var k :| Holds(sys, k, t);
      assert Holds(sys', k, t);
    }
  }

  lemma AcquireKeepsExclusive(sys: System, id: nat)
    requires Exclusive(sys) && id in sys.tasks && !sys.tasks[id].held
    ensures Exclusive(After(sys, Acquire(id)))
  {
    var task := sys.tasks[id];
    if !HasThread(LogOf(sys, task.thread)) || task.thread in sys.active {
      AbandonKeepsExclusive(sys, id);
    } else {
      var sys' := After(sys, Acquire(id));
      assert Holds(sys', id, task.thread);
      assert forall k, t :: k != id ==> (Holds(sys', k, t) <==> Holds(sys, k, t));
      forall t | t in sys'.active ensures exists k :: Holds(sys', k, t) {
        if t != task.thread {
          var k :| Holds(sys, k, t);
          assert Holds(sys', k, t);
        }
      }
    }
  }

  /** Systems with the same tasks and active threads agree about who holds what. */
  lemma SameTasksExclusive(a: System, b: System)
    requires Exclusive(a) && b.tasks == a.tasks && b.active == a.active
    ensures Exclusive(b)
  {
    assert forall k, t :: Holds(b, k, t) <==> Holds(a, k, t);
    forall t | t in b.active ensures exists k :: Holds(b, k, t) {
      var k :| Holds(a, k, t);
      assert Holds(b, k, t);
    }
  }

  /** The system a task's move starts from once its effect on store, observers and
      history is done: tasks and guard are still as before. */
  function Effect(sys: System, id: nat, action: Action, fate: Fate): System
    requires id in sys.tasks
  {
    var task := sys.tasks[id];
    match action
    case Append(r, next) =>
      var store := Write(sys.store, task.thread, r, fate);
      if Acknowledged(sys.store, fate) then
        sys.(store := store,
             told := sys.told + if task.pc.Recovering? then [] else [store.events[|store.events| - 1]])
      else sys.(store := store, faults := sys.faults + 1)
    case Goto(next) => if next.Recovering? then sys else sys.(told := sys.told + Published(sys, id))
    case Enter(turn, p, next) =>
      sys.(entries := sys.entries[task.thread := EntriesOf(sys, task.thread) + [Entry(turn, p, sys.config, None)]])
    case Return(result, next) =>
      var entries := EntriesOf(sys, task.thread);
      if entries == [] then sys else
      var n := |entries| - 1;
      sys.(entries := sys.entries[task.thread := entries[n := entries[n].(result := Some(result))]])
  }

  /** Where the task goes from there. */
  function Onward(sys: System, action: Action, fate: Fate): Pc {
    if action.Append? && !Acknowledged(sys.store, fate) then Free else action.next
  }

  predicate Loads(action: Action) {
    action.Goto? && action.next.Recovering?
  }

  lemma CarrySplits(sys: System, id: nat, action: Action, fate: Fate)
    requires id in sys.tasks
    ensures !Loads(action) ==>
        Carry(sys, id, action, fate) == MoveTo(Effect(sys, id, action, fate), id, Onward(sys, action, fate))
    ensures Loads(action) ==>
              Carry(sys, id, action, fate) ==
              sys.(tasks := sys.tasks[id := sys.tasks[id].(
                pc := action.next, before := NextSequence(EnvelopesOf(sys.store.events, sys.tasks[id].thread, 0)))])
  {
  }

  lemma CarryKeepsExclusive(sys: System, id: nat, action: Action, fate: Fate)
    requires Exclusive(sys) && id in sys.tasks && sys.tasks[id].held
    ensures Exclusive(Carry(sys, id, action, fate))
  {
    CarrySplits(sys, id, action, fate);
    if Loads(action) {
      MoveToKeepsExclusive(sys, id, action.next);
      SameHoldersExclusive(MoveTo(sys, id, action.next), Carry(sys, id, action, fate));
    } else {
      var mid := Effect(sys, id, action, fate);
      SameTasksExclusive(sys, mid);
      MoveToKeepsExclusive(mid, id, Onward(sys, action, fate));
    }
  }

  lemma SameHoldersExclusive(a: System, b: System)
    requires Exclusive(a) && b.active == a.active && b.tasks.Keys == a.tasks.Keys
    requires forall k :: k in a.tasks ==> b.tasks[k].held == a.tasks[k].held && b.tasks[k].thread == a.tasks[k].thread
                                          && b.tasks[k].pc == a.tasks[k].pc
    ensures Exclusive(b)
  {
    assert forall k, t :: Holds(b, k, t) <==> Holds(a, k, t);
    forall t | t in b.active ensures exists k :: Holds(b, k, t) {
      var k :| Holds(a, k, t);
      assert Holds(b, k, t);
    }
  }

  /** At most one task ever works on a thread: acquiring keeps a thread to its holder and
      every way of letting go gives it back. */
  lemma MovesKeepExclusive(sys: System, move: Move)
    requires Exclusive(sys) && MoveEnabled(sys, move)
    ensures Exclusive(After(sys, move))
  {
    match move {
      case StartThread(_, _) => SameTasksExclusive(sys, After(sys, move));
      case Request(id, _, _) =>
        var sys' := After(sys, move);
        assert forall k, t :: Holds(sys', k, t) <==> Holds(sys, k, t);
        forall t | t in sys'.active ensures exists k :: Holds(sys', k, t) {
          var k :| Holds(sys, k, t);
          assert Holds(sys', k, t);
        }
      case Acquire(id) => AcquireKeepsExclusive(sys, id);
      case Continue(id, choice, fate) =>
        CarryKeepsExclusive(sys, id,
          Program(sys.config, LogOf(sys, sys.tasks[id].thread), sys.tasks[id].pc, choice).value, fate);
      case Abandon(id) => AbandonKeepsExclusive(sys, id);
      case Crash(_) =>
    }
  }

  // ---- Each thread by itself ----

  /** A landed record waits behind the latch. */
  predicate Latching(sys: System) {
    sys.store.landed != [] ==> sys.store.latched
  }

  lemma SamePc(a: System, b: System, thread: ThreadId)
    requires Exclusive(a) && Exclusive(b)
    requires forall k :: Holds(a, k, thread) <==> Holds(b, k, thread)
    requires forall k :: Holds(a, k, thread) ==> a.tasks[k].pc == b.tasks[k].pc
    ensures PcOf(a, thread) == PcOf(b, thread)
    ensures (forall k :: Holds(a, k, thread) ==> a.tasks[k] == b.tasks[k]) ==>
        HolderOf(a, thread) == HolderOf(b, thread)
  {
    if k :| Holds(a, k, thread) {
      PcOfHolder(a, k, thread);
      PcOfHolder(b, k, thread);
    }
  }

  /** The move is a step of this thread, or does not concern it. */
  ghost predicate Simulated(sys: System, sys': System, thread: ThreadId) {
    View(sys', thread) == View(sys, thread) || Follows(View(sys, thread), View(sys', thread))
  }

  lemma StepSimulates(sys: System, sys': System, thread: ThreadId, step: Step)
    requires Enabled(View(sys, thread), step) && View(sys', thread) == Next(View(sys, thread), step)
    ensures Simulated(sys, sys', thread)
  {
  }

  /** Writing for one thread leaves the others their records. */
  lemma WriteFrame(store: Store, writer: ThreadId, r: Record, fate: Fate, thread: ThreadId)
    requires store.landed != [] ==> store.latched
    ensures var s := Write(store, writer, r, fate);
            && (thread != writer ==>
                  RecordsOf(s.events, thread) == RecordsOf(store.events, thread)
                  && RecordsOf(s.landed, thread) == RecordsOf(store.landed, thread))
            && (thread == writer ==>
                  && RecordsOf(s.events, thread)
                     == RecordsOf(store.events, thread) + (if Acknowledged(store, fate) then [r] else [])
                  && RecordsOf(s.landed, thread)
                     == if !store.latched && fate == Landed then [r] else RecordsOf(store.landed, thread))
  {
    var e := Envelope(NextSequence(store.events), writer, r);
    RecordsAppend(store.events, e, thread);
    assert [e] == [] + [e];
    RecordsAppend([], e, thread);
  }

  lemma MoveToView(sys: System, id: nat, next: Pc, thread: ThreadId)
    requires Exclusive(sys) && id in sys.tasks && sys.tasks[id].held
    ensures var sys' := MoveTo(sys, id, next);
            && View(sys', thread)
                 == (if thread == sys.tasks[id].thread then View(sys, thread).(pc := next) else View(sys, thread))
            && HolderOf(sys', thread) == (if thread != sys.tasks[id].thread then HolderOf(sys, thread)
                                          else if next == Free then None else Some(sys.tasks[id].(pc := next)))
  {
    var sys' := MoveTo(sys, id, next);
    var u := sys.tasks[id].thread;
    MoveToKeepsExclusive(sys, id, next);
    assert Holds(sys, id, u);
    if thread != u {
      assert forall k :: Holds(sys', k, thread) <==> Holds(sys, k, thread);
      SamePc(sys, sys', thread);
    } else if next == Free {
      assert forall k :: Holds(sys', k, u) ==> Holds(sys, k, u) && k != id;
      forall k ensures !Holds(sys', k, u) {
      }
      PcOfNobody(sys', u);
    } else {
      assert Holds(sys', id, u);
      PcOfHolder(sys', id, u);
    }
  }

  lemma EffectFrame(sys: System, id: nat, action: Action, fate: Fate, thread: ThreadId)
    requires Exclusive(sys) && id in sys.tasks
    ensures Exclusive(Effect(sys, id, action, fate)) && PcOf(Effect(sys, id, action, fate), thread) == PcOf(sys, thread)
  {
    var mid := Effect(sys, id, action, fate);
    SameTasksExclusive(sys, mid);
    assert forall k, t :: Holds(mid, k, t) <==> Holds(sys, k, t);
    SamePc(sys, mid, thread);
  }

  lemma WriteOwnView(sys: System, id: nat, action: Action, fate: Fate)
    requires Exclusive(sys) && Latching(sys) && id in sys.tasks && action.Append?
    ensures var thread := sys.tasks[id].thread;
            View(Effect(sys, id, action, fate), thread).(pc := Onward(sys, action, fate))
            == Perform(View(sys, thread), action, fate)
  {
    EffectFrame(sys, id, action, fate, sys.tasks[id].thread);
    WriteFrame(sys.store, sys.tasks[id].thread, action.record, fate, sys.tasks[id].thread);
  }

  lemma WriteOthersView(sys: System, id: nat, action: Action, fate: Fate, thread: ThreadId)
    requires Exclusive(sys) && Latching(sys) && id in sys.tasks && action.Append? && thread != sys.tasks[id].thread
    ensures var mid := Effect(sys, id, action, fate);
            View(mid, thread) == View(sys, thread) || View(mid, thread) == Next(View(sys, thread), Latch)
  {
    EffectFrame(sys, id, action, fate, thread);
    WriteFrame(sys.store, sys.tasks[id].thread, action.record, fate, thread);
  }

  /** What the executor's call or answer changes is the thread's own. */
  lemma CrossView(sys: System, id: nat, action: Action, fate: Fate, thread: ThreadId)
    requires Exclusive(sys) && id in sys.tasks && !action.Append?
    ensures var mid := Effect(sys, id, action, fate);
            if thread == sys.tasks[id].thread
            then View(mid, thread).(pc := action.next) == Perform(View(sys, thread), action, fate)
            else View(mid, thread) == View(sys, thread)
  {
    EffectFrame(sys, id, action, fate, thread);
  }

  lemma EffectView(sys: System, id: nat, action: Action, fate: Fate, thread: ThreadId)
    requires Exclusive(sys) && Latching(sys) && id in sys.tasks && sys.tasks[id].held
    ensures var mid := Effect(sys, id, action, fate);
            && Exclusive(mid)
            && (thread == sys.tasks[id].thread ==>
                  View(mid, thread).(pc := Onward(sys, action, fate)) == Perform(View(sys, thread), action, fate))
            && (thread != sys.tasks[id].thread ==>
                  View(mid, thread) == View(sys, thread) || View(mid, thread) == Next(View(sys, thread), Latch))
  {
    EffectFrame(sys, id, action, fate, thread);
    if action.Append? && thread == sys.tasks[id].thread {
      WriteOwnView(sys, id, action, fate);
    } else if action.Append? {
      WriteOthersView(sys, id, action, fate, thread);
    } else {
      CrossView(sys, id, action, fate, thread);
    }
  }

  lemma LoadView(sys: System, id: nat, action: Action, fate: Fate, thread: ThreadId)
    requires Exclusive(sys) && id in sys.tasks && sys.tasks[id].held && Loads(action)
    ensures View(Carry(sys, id, action, fate), thread) ==
            if thread == sys.tasks[id].thread then View(sys, thread).(pc := action.next) else View(sys, thread)
  {
    var sys' := Carry(sys, id, action, fate);
    CarryKeepsExclusive(sys, id, action, fate);
    var u := sys.tasks[id].thread;
    assert forall k, t :: Holds(sys', k, t) <==> Holds(sys, k, t);
    if thread == u {
      assert Holds(sys', id, u);
      PcOfHolder(sys', id, u);
    } else {
      SamePc(sys, sys', thread);
    }
  }

  lemma CarryView(sys: System, id: nat, action: Action, fate: Fate, thread: ThreadId)
    requires Exclusive(sys) && Latching(sys) && id in sys.tasks && sys.tasks[id].held
    ensures var sys' := Carry(sys, id, action, fate);
            if thread == sys.tasks[id].thread then View(sys', thread) == Perform(View(sys, thread), action, fate)
            else View(sys', thread) == View(sys, thread) || View(sys', thread) == Next(View(sys, thread), Latch)
  {
    if Loads(action) {
      LoadView(sys, id, action, fate, thread);
    } else {
      CarrySplits(sys, id, action, fate);
      EffectView(sys, id, action, fate, thread);
      MoveToView(Effect(sys, id, action, fate), id, Onward(sys, action, fate), thread);
    }
  }

  lemma ContinueSimulates(sys: System, id: nat, choice: Choice, fate: Fate, thread: ThreadId)
    requires Exclusive(sys) && Latching(sys) && MoveEnabled(sys, Continue(id, choice, fate))
    ensures Simulated(sys, After(sys, Continue(id, choice, fate)), thread)
  {
    var task := sys.tasks[id];
    assert Holds(sys, id, task.thread);
    PcOfHolder(sys, id, task.thread);
    var action := Program(sys.config, LogOf(sys, task.thread), task.pc, choice).value;
    var sys' := Carry(sys, id, action, fate);
    CarryView(sys, id, action, fate, thread);
    if thread == task.thread {
      StepSimulates(sys, sys', thread, Work(choice, fate));
    } else if View(sys', thread) != View(sys, thread) {
      StepSimulates(sys, sys', thread, Latch);
    }
  }

  lemma StartKeepsPc(sys: System, started: ThreadId, fate: Fate, thread: ThreadId)
    requires Exclusive(sys) && MoveEnabled(sys, StartThread(started, fate))
    ensures PcOf(After(sys, StartThread(started, fate)), thread) == PcOf(sys, thread)
  {
    var sys' := After(sys, StartThread(started, fate));
    SameTasksExclusive(sys, sys');
    assert forall k, t :: Holds(sys', k, t) <==> Holds(sys, k, t);
    SamePc(sys, sys', thread);
  }

  lemma StartOthersView(sys: System, started: ThreadId, fate: Fate, thread: ThreadId)
    requires Exclusive(sys) && Latching(sys) && MoveEnabled(sys, StartThread(started, fate)) && thread != started
    ensures var sys' := After(sys, StartThread(started, fate));
            View(sys', thread) == View(sys, thread) || View(sys', thread) == Next(View(sys, thread), Latch)
  {
    StartKeepsPc(sys, started, fate, thread);
    WriteFrame(sys.store, started, Record(None, ThreadStarted), fate, thread);
  }

  lemma NeverStartedView(sys: System, thread: ThreadId)
    requires Exclusive(sys) && NeverStarted(sys, thread)
    ensures Enabled(View(sys, thread), Create(Stored))
    ensures LogOf(sys, thread) == [] && RecordsOf(sys.store.landed, thread) == []
  {
    NoRecords(sys.store.events, thread);
    NoRecords(sys.store.landed, thread);
    forall k ensures !Holds(sys, k, thread) {
    }
    PcOfNobody(sys, thread);
  }

  lemma StartOwnView(sys: System, started: ThreadId, fate: Fate)
    requires Exclusive(sys) && Latching(sys) && MoveEnabled(sys, StartThread(started, fate))
    ensures Enabled(View(sys, started), Create(fate))
    ensures View(After(sys, StartThread(started, fate)), started) == Next(View(sys, started), Create(fate))
  {
    NeverStartedView(sys, started);
    StartKeepsPc(sys, started, fate, started);
    WriteFrame(sys.store, started, Record(None, ThreadStarted), fate, started);
  }

  lemma StartSimulates(sys: System, started: ThreadId, fate: Fate, thread: ThreadId)
    requires Exclusive(sys) && Latching(sys) && MoveEnabled(sys, StartThread(started, fate))
    ensures Simulated(sys, After(sys, StartThread(started, fate)), thread)
  {
    var sys' := After(sys, StartThread(started, fate));
    if thread == started {
      StartOwnView(sys, started, fate);
      StepSimulates(sys, sys', thread, Create(fate));
    } else {
      StartOthersView(sys, started, fate, thread);
      if View(sys', thread) != View(sys, thread) {
        StepSimulates(sys, sys', thread, Latch);
      }
    }
  }

  lemma {:induction false} NoRecords(events: seq<Envelope>, thread: ThreadId)
    requires forall i :: 0 <= i < |events| ==> events[i].thread != thread
    ensures RecordsOf(events, thread) == []
  {
    if events != [] {
      NoRecords(events[..|events| - 1], thread);
    }
  }

  lemma AcquireSimulates(sys: System, id: nat, thread: ThreadId)
    requires Exclusive(sys) && MoveEnabled(sys, Acquire(id))
    ensures Simulated(sys, After(sys, Acquire(id)), thread)
  {
    var sys' := After(sys, Acquire(id));
    var task := sys.tasks[id];
    AcquireKeepsExclusive(sys, id);
    if task.thread == thread && task.thread !in sys.active && HasThread(LogOf(sys, thread)) {
      forall k ensures !Holds(sys, k, thread) {
      }
      PcOfNobody(sys, thread);
      assert Holds(sys', id, thread);
      PcOfHolder(sys', id, thread);
      StepSimulates(sys, sys', thread, Take(task.goal));
    } else {
      assert forall k :: Holds(sys', k, thread) <==> Holds(sys, k, thread);
      SamePc(sys, sys', thread);
    }
  }

  lemma AbandonSimulates(sys: System, id: nat, thread: ThreadId)
    requires Exclusive(sys) && MoveEnabled(sys, Abandon(id))
    ensures Simulated(sys, After(sys, Abandon(id)), thread)
  {
    var sys' := After(sys, Abandon(id));
    var task := sys.tasks[id];
    AbandonKeepsExclusive(sys, id);
    if task.held && task.thread == thread {
      assert Holds(sys, id, thread);
      PcOfHolder(sys, id, thread);
      assert forall k :: Holds(sys', k, thread) ==> Holds(sys, k, thread) && k != id;
      forall k ensures !Holds(sys', k, thread) {
      }
      PcOfNobody(sys', thread);
      StepSimulates(sys, sys', thread, Drop);
    } else {
      assert forall k :: Holds(sys', k, thread) <==> Holds(sys, k, thread);
      SamePc(sys, sys', thread);
    }
  }

  /** Whatever the interleaving, one thread of the system only ever makes steps of the
      turn machine. */
  lemma MovesSimulateSteps(sys: System, move: Move, thread: ThreadId)
    requires Exclusive(sys) && Latching(sys) && MoveEnabled(sys, move)
    ensures Simulated(sys, After(sys, move), thread)
  {
    match move {
      case StartThread(started, fate) => StartSimulates(sys, started, fate, thread);
      case Request(id, _, _) =>
        var sys' := After(sys, move);
        MovesKeepExclusive(sys, move);
        assert forall k :: Holds(sys', k, thread) <==> Holds(sys, k, thread);
        SamePc(sys, sys', thread);
      case Acquire(id) => AcquireSimulates(sys, id, thread);
      case Continue(id, choice, fate) => ContinueSimulates(sys, id, choice, fate, thread);
      case Abandon(id) => AbandonSimulates(sys, id, thread);
      case Crash(config) =>
        var sys' := After(sys, move);
        PcOfNobody(sys', thread);
        RecordsConcat(sys.store.events, sys.store.landed, thread);
        StepSimulates(sys, sys', thread, Restart(config));
    }
  }

  // ---- Whole runs ----

  ghost predicate SafeSystem(sys: System) {
    && Exclusive(sys) && Latching(sys)
    && (forall t :: Inv(View(sys, t)))
  }

  lemma MovesKeepSafe(sys: System, move: Move)
    requires SafeSystem(sys) && MoveEnabled(sys, move)
    ensures SafeSystem(After(sys, move))
  {
    MovesKeepExclusive(sys, move);
    LatchStays(sys, move);
    var sys' := After(sys, move);
    forall t ensures Inv(View(sys', t)) {
      MovesSimulateSteps(sys, move, t);
      if View(sys', t) != View(sys, t) {
        var step :| Enabled(View(sys, t), step) && View(sys', t) == Next(View(sys, t), step);
        StepKeepsInv(View(sys, t), step);
      }
    }
  }

  lemma LatchStays(sys: System, move: Move)
    requires Latching(sys) && MoveEnabled(sys, move)
    ensures Latching(After(sys, move))
  {
    if move.Continue? {
      var task := sys.tasks[move.id];
      CarrySplits(sys, move.id, Program(sys.config, LogOf(sys, task.thread), task.pc, move.choice).value, move.fate);
    }
  }

  ghost predicate IsSystemRun(states: seq<System>) {
    && states != []
    && (exists config :: states[0] == Booted(config))
    && (forall i :: 0 <= i < |states| - 1 ==> Moves(states[i], states[i + 1]))
  }

  ghost predicate Moves(a: System, b: System) {
    exists move :: MoveEnabled(a, move) && b == After(a, move)
  }

  lemma BootedIsSafe(config: Config)
    ensures SafeSystem(Booted(config))
  {
    var sys := Booted(config);
    forall t ensures Inv(View(sys, t)) {
      PcOfNobody(sys, t);
      assert View(sys, t).Durable() == [];
    }
  }

  lemma {:induction false} RunsAreSafe(states: seq<System>, i: nat)
    requires IsSystemRun(states) && i < |states|
    ensures SafeSystem(states[i])
  {
    if i == 0 {
      var config :| states[0] == Booted(config);
      BootedIsSafe(config);
    } else {
      RunsAreSafe(states, i - 1);
      assert Moves(states[i - 1], states[i - 1 + 1]);
      var move :| MoveEnabled(states[i - 1], move) && states[i] == After(states[i - 1], move);
      MovesKeepSafe(states[i - 1], move);
    }
  }
}
