/** Many turns and recoveries on one runtime: they share the store and its write latch,
    and are kept apart only by the set of active threads. */
module Runtime {
  import opened Wrappers
  import opened Ids
  import opened Protocol
  import opened Journal
  import opened Recovery
  import opened TurnMachine

  /** A call to the runtime: it holds the guard of its thread or has not acquired it yet.
      `before` is the sequence number recovery publishes from. */
  datatype Task = Task(thread: ThreadId, goal: Goal, held: bool, pc: Pc, before: nat)

  /** `told` is what observers were notified of since the process started, in order, `past`
      what they were before; `boot` is where the log stood when it started; `faults` counts
      failed appends since then; `entries` is the history of executor calls per thread. */
  datatype System = System(
    store: Store, active: set<ThreadId>, tasks: map<nat, Task>, entries: map<ThreadId, seq<Entry>>,
    config: Config, past: seq<Envelope>, told: seq<Envelope>, boot: nat, faults: nat)

  function Booted(config: Config): System {
    System(Store([], [], false), {}, map[], map[], config, [], [], 0, 0)
  }

  datatype Move =
    | StartThread(thread: ThreadId, fate: Fate)
    | Request(id: nat, thread: ThreadId, goal: Goal)
    | Acquire(id: nat)
    | Continue(id: nat, choice: Choice, fate: Fate)
    | Abandon(id: nat)
    | Crash(config: Config)

  function LogOf(sys: System, thread: ThreadId): seq<Record> {
    RecordsOf(sys.store.events, thread)
  }

  function EntriesOf(sys: System, thread: ThreadId): seq<Entry> {
    if thread in sys.entries then sys.entries[thread] else []
  }

  predicate NeverStarted(sys: System, thread: ThreadId) {
    && (forall i :: 0 <= i < |sys.store.events| ==> sys.store.events[i].thread != thread)
    && (forall i :: 0 <= i < |sys.store.landed| ==> sys.store.landed[i].thread != thread)
    && thread !in sys.active
  }

  predicate MoveEnabled(sys: System, move: Move) {
    match move
    case StartThread(thread, _) => NeverStarted(sys, thread)
    case Request(id, _, _) => id !in sys.tasks
    case Acquire(id) => id in sys.tasks && !sys.tasks[id].held
    case Continue(id, choice, _) =>
      && id in sys.tasks && sys.tasks[id].held
      && Program(sys.config, LogOf(sys, sys.tasks[id].thread), sys.tasks[id].pc, choice).Some?
    case Abandon(id) => id in sys.tasks && (sys.tasks[id].held ==> sys.tasks[id].pc.Awaits())
    case Crash(_) => true
  }

  function WithoutTask(sys: System, id: nat): System
    requires id in sys.tasks
  {
    var left := sys.(tasks := map k | k in sys.tasks && k != id :: sys.tasks[k]);
    if sys.tasks[id].held then left.(active := sys.active - {sys.tasks[id].thread}) else left
  }

  /** A task at a new position; at the end of its code the guard is dropped with it. */
  function MoveTo(sys: System, id: nat, next: Pc): System
    requires id in sys.tasks
  {
    if next == Free then WithoutTask(sys, id)
    else sys.(tasks := sys.tasks[id := sys.tasks[id].(pc := next)])
  }

  /** What recovery tells observers when it is done: the thread's records since it began,
      if it recorded any. */
  function Published(sys: System, id: nat): seq<Envelope>
    requires id in sys.tasks
  {
    var task := sys.tasks[id];
    if task.pc.Recovering? && task.pc.recorded > 0 then EnvelopesOf(sys.store.events, task.thread, task.before) else []
  }

  function Carry(sys: System, id: nat, action: Action, fate: Fate): System
    requires id in sys.tasks
  {
    var task := sys.tasks[id];
    match action
    case Append(r, next) =>
      var store := Write(sys.store, task.thread, r, fate);
      if Acknowledged(sys.store, fate) then
        var tell := if task.pc.Recovering? then [] else [store.events[|store.events| - 1]];
        MoveTo(sys.(store := store, told := sys.told + tell), id, next)
      else MoveTo(sys.(store := store, faults := sys.faults + 1), id, Free)
    case Goto(next) =>
      if next.Recovering? then
        sys.(tasks :=
            sys.tasks[id := task.(pc := next, before := NextSequence(EnvelopesOf(sys.store.events, task.thread, 0)))])
      else MoveTo(sys.(told := sys.told + Published(sys, id)), id, next)
    case Enter(turn, p, next) =>
      var entries := EntriesOf(sys, task.thread) + [Entry(turn, p, sys.config, None)];
      MoveTo(sys.(entries := sys.entries[task.thread := entries]), id, next)
    case Return(result, next) =>
      var entries := EntriesOf(sys, task.thread);
      if entries == [] then MoveTo(sys, id, next) else
      var n := |entries| - 1;
      MoveTo(sys.(entries := sys.entries[task.thread := entries[n := entries[n].(result := Some(result))]]), id, next)
  }

  function After(sys: System, move: Move): System
    requires MoveEnabled(sys, move)
  {
    match move
    case StartThread(thread, fate) =>
      var store := Write(sys.store, thread, Record(None, ThreadStarted), fate);
      if Acknowledged(sys.store, fate) then
        sys.(store := store, told := sys.told + [store.events[|store.events| - 1]])
      else sys.(store := store, faults := sys.faults + 1)
    case Request(id, thread, goal) => sys.(tasks := sys.tasks[id := Task(thread, goal, false, Free, 0)])
    case Acquire(id) =>
      var task := sys.tasks[id];
      if !HasThread(LogOf(sys, task.thread)) || task.thread in sys.active then WithoutTask(sys, id)
      else sys.(active := sys.active + {task.thread},
                tasks := sys.tasks[id := task.(held := true, pc := Checking(task.goal))])
    case Continue(id, choice, fate) =>
      var task := sys.tasks[id];
      Carry(sys, id, Program(sys.config, LogOf(sys, task.thread), task.pc, choice).value, fate)
    case Abandon(id) => WithoutTask(sys, id)
    case Crash(config) =>
      var store := Reopen(sys.store);
      System(store, {}, map[], sys.entries, config, sys.past + sys.told, [], NextSequence(store.events), 0)
  }

  // ---- Mutual exclusion ----

  predicate Holds(sys: System, id: nat, thread: ThreadId) {
    id in sys.tasks && sys.tasks[id].held && sys.tasks[id].thread == thread
  }

  /** A thread is active exactly when one task holds it, and then only that one. */
  ghost predicate Exclusive(sys: System) {
    && (forall id, t :: Holds(sys, id, t) ==> t in sys.active && sys.tasks[id].pc != Free)
    && (forall t :: t in sys.active ==> exists id :: Holds(sys, id, t))
    && (forall a, b, t :: Holds(sys, a, t) && Holds(sys, b, t) ==> a == b)
  }

  ghost function HolderOf(sys: System, thread: ThreadId): Option<Task> {
    if exists id :: Holds(sys, id, thread) then
      var id :| Holds(sys, id, thread); Some(sys.tasks[id])
    else None
  }

  /** Where the holder of a thread is; Free when nobody holds it. */
  ghost function PcOf(sys: System, thread: ThreadId): Pc {
    match HolderOf(sys, thread)
    case Some(task) => task.pc
    case None => Free
  }

  /** One thread of the system, as the turn machine sees it. */
  ghost function View(sys: System, thread: ThreadId): Thread {
    Thread(LogOf(sys, thread), RecordsOf(sys.store.landed, thread), sys.store.latched, PcOf(sys, thread),
           EntriesOf(sys, thread), sys.config)
  }

  lemma PcOfHolder(sys: System, id: nat, thread: ThreadId)
    requires Exclusive(sys) && Holds(sys, id, thread)
    ensures HolderOf(sys, thread) == Some(sys.tasks[id])
    ensures PcOf(sys, thread) == sys.tasks[id].pc
  {
  }

  lemma PcOfNobody(sys: System, thread: ThreadId)
    requires forall id :: !Holds(sys, id, thread)
    ensures HolderOf(sys, thread) == None
    ensures PcOf(sys, thread) == Free
  {
  }
}
