/** The ledger object: live tasks, index and numbering beside the log they come from. */
module LedgerStore {
  import opened Wrappers
  import opened Ids
  import opened Ledger

  datatype Refusal =
    | UnknownTask(id: TaskId)
    | WrongClaim(id: TaskId)
    | LeaseExpired(id: TaskId)
    | HeartbeatTooShort(id: TaskId)
    | InvalidTransition(id: TaskId, status: Status)
    | WriteFailed

  /** Whether a worker may still speak for a task: it must exist, be running, be held under
      the very claim the token names, and its lease must not have run out. */
  function LeaseRefusal(tasks: Tasks, id: TaskId, token: Token, now: nat): Option<Refusal> {
    if id !in tasks then Some(UnknownTask(id)) else
    var task := tasks[id];
    if task.status != Running then Some(InvalidTransition(id, task.status))
    else if task.lease.None? || token != Token(task.lease.value.worker, task.attempt) then Some(WrongClaim(id))
    else if now >= task.lease.value.expires then Some(LeaseExpired(id))
    else None
  }

  function HeartbeatRefusal(tasks: Tasks, id: TaskId, token: Token, now: nat, expires: nat): Option<Refusal> {
    var refusal := LeaseRefusal(tasks, id, token, now);
    if refusal.Some? then refusal
    else if tasks[id].lease.Some? && expires <= tasks[id].lease.value.expires then Some(HeartbeatTooShort(id))
    else None
  }

  function CancelRefusal(tasks: Tasks, id: TaskId): Option<Refusal> {
    if id !in tasks then Some(UnknownTask(id))
    else if tasks[id].status.Terminal() then Some(InvalidTransition(id, tasks[id].status))
    else None
  }

  function AcknowledgeRefusal(tasks: Tasks, id: TaskId): Option<Refusal> {
    if id !in tasks then Some(UnknownTask(id))
    else if tasks[id].delivery != Awaiting then Some(InvalidTransition(id, tasks[id].status))
    else None
  }

  const LEASE_EXPIRED := "worker lease expired; completion cannot be determined"

  function ExpiredIds(tasks: Tasks, now: nat): set<TaskId> {
    set id | id in tasks && Expired(tasks[id], now)
  }

  /** The log grew by one record of this event. */
  predicate Logged(before: seq<Envelope>, after: seq<Envelope>, e: Event) {
    |after| == |before| + 1 && before == after[..|before|] && after[|before|].event == e
  }

  /** Nothing was acknowledged and nothing changed. */
  predicate Unmoved(
    log: seq<Envelope>, clock: seq<nat>, tasks: Tasks, log': seq<Envelope>, clock': seq<nat>, tasks': Tasks)
  {
    log' == log && clock' == clock && tasks' == tasks
  }

  /** A recovery under way: `ids` of the expired tasks `all` are still to be marked. */
  predicate Marked(
    before: Tasks, tasks: Tasks, all: set<TaskId>, ids: set<TaskId>, logBefore: seq<Envelope>, log: seq<Envelope>,
    recovered: seq<Task>)
  {
    && ids <= all <= before.Keys && tasks.Keys == before.Keys
    && |recovered| + |ids| == |all| && |log| == |logBefore| + |recovered| && logBefore == log[..|logBefore|]
    && (forall id :: id in before && (id in ids || id !in all) ==> tasks[id] == before[id])
    && (forall id :: id in all && id !in ids ==> tasks[id].status == Unknown)
    && (forall k :: 0 <= k < |recovered| ==> log[|logBefore| + k].event == MarkUnknown(recovered[k].id, LEASE_EXPIRED))
    && (forall k :: 0 <= k < |recovered| ==> recovered[k].id in all - ids && tasks[recovered[k].id] == recovered[k])
    && (forall a, b :: 0 <= a < b < |recovered| ==> Less(recovered[a].id, recovered[b].id))
    && (forall k, id :: 0 <= k < |recovered| && id in ids ==> Less(recovered[k].id, id))
  }

  /** The same with the host times of the records, all of them the time of the recovery. */
  predicate Marking(
    before: Tasks, tasks: Tasks, now: nat, ids: set<TaskId>, logBefore: seq<Envelope>, log: seq<Envelope>,
    clockBefore: seq<nat>, clock: seq<nat>, recovered: seq<Task>)
  {
    && Marked(before, tasks, ExpiredIds(before, now), ids, logBefore, log, recovered)
    && clock == clockBefore + Repeated(now, |recovered|)
  }

  lemma MarkingBegins(tasks: Tasks, now: nat, log: seq<Envelope>, clock: seq<nat>)
    ensures Marking(tasks, tasks, now, ExpiredIds(tasks, now), log, log, clock, clock, [])
  {
    assert clock + Repeated(now, 0) == clock;
  }

  /** The least task still to be marked comes behind those that are, and before the rest. */
  lemma MarkedInOrder(recovered: seq<Task>, ids: set<TaskId>, task: Task)
    requires forall a, b :: 0 <= a < b < |recovered| ==> Less(recovered[a].id, recovered[b].id)
    requires forall k, id :: 0 <= k < |recovered| && id in ids ==> Less(recovered[k].id, id)
    requires IsLeast(task.id, ids, Less)
    ensures var more := recovered + [task];
            && (forall a, b :: 0 <= a < b < |more| ==> Less(more[a].id, more[b].id))
            && (forall k, id :: 0 <= k < |more| && id in ids - {task.id} ==> Less(more[k].id, id))
  {
  }

  lemma MarkStep(
    before: Tasks, tasks: Tasks, all: set<TaskId>, ids: set<TaskId>, logBefore: seq<Envelope>, log: seq<Envelope>,
    recovered: seq<Task>, id: TaskId, at: nat, log': seq<Envelope>)
    requires Marked(before, tasks, all, ids, logBefore, log, recovered) && IsLeast(id, ids, Less) && tasks[id].id == id
    requires Logged(log, log', MarkUnknown(id, LEASE_EXPIRED))
    ensures var task := Changed(tasks[id], MarkUnknown(id, LEASE_EXPIRED), at);
            Marked(before, tasks[id := task], all, ids - {id}, logBefore, log', recovered + [task])
  {
    var task := Changed(tasks[id], MarkUnknown(id, LEASE_EXPIRED), at);
    var tasks', recovered' := tasks[id := task], recovered + [task];
    assert task.id == id && task.status == Unknown;
    assert log'[..|logBefore|] == log'[..|log|][..|logBefore|];
    MarkedInOrder(recovered, ids, task);
    forall k | 0 <= k < |recovered'|
      ensures log'[|logBefore| + k].event == MarkUnknown(recovered'[k].id, LEASE_EXPIRED)
      ensures recovered'[k].id in all - (ids - {id}) && tasks'[recovered'[k].id] == recovered'[k]
    {
      if k < |recovered| {
        assert log'[..|log|][|logBefore| + k] == log[|logBefore| + k];
      }
    }
  }

  lemma MarkReady(
    before: Tasks, tasks: Tasks, now: nat, ids: set<TaskId>, logBefore: seq<Envelope>, log: seq<Envelope>,
    clockBefore: seq<nat>, clock: seq<nat>, recovered: seq<Task>, id: TaskId)
    requires Marking(before, tasks, now, ids, logBefore, log, clockBefore, clock, recovered) && id in ids
    ensures Admitted(tasks, MarkUnknown(id, LEASE_EXPIRED), now)
  {
  }

  lemma MarkingStep(
    before: Tasks, tasks: Tasks, now: nat, ids: set<TaskId>, logBefore: seq<Envelope>, log: seq<Envelope>,
    clockBefore: seq<nat>, clock: seq<nat>, recovered: seq<Task>, id: TaskId, at: nat, log': seq<Envelope>,
    tasks': Tasks)
    requires Marking(before, tasks, now, ids, logBefore, log, clockBefore, clock, recovered) && IsLeast(id, ids, Less)
    requires Orderly(tasks) && Logged(log, log', MarkUnknown(id, LEASE_EXPIRED))
    requires Apply(tasks, MarkUnknown(id, LEASE_EXPIRED), at) == Some(tasks')
    ensures id in tasks'
    ensures Marking(
              before, tasks', now, ids - {id}, logBefore, log', clockBefore, clock + [now], recovered + [tasks'[id]])
  {
    MarkStep(before, tasks, ExpiredIds(before, now), ids, logBefore, log, recovered, id, at, log');
    assert Repeated(now, |recovered| + 1) == Repeated(now, |recovered|) + [now];
  }

  function NextOf(log: seq<Envelope>): nat {
    if log == [] then 0 else
      var before, last := NextOf(log[..|log| - 1]), log[|log| - 1].sequence + 1;
      if before <= last then last else before
  }

  lemma {:induction false} HistoriesAreNumbered(log: seq<Envelope>, clock: seq<nat>)
    requires Happened(log, clock)
    ensures NextOf(log) == |log|
  {
    if log != [] {
      HistoriesAreNumbered(log[..|log| - 1], clock[..|log| - 1]);
    }
  }

  /** Which task an event of the log names that no event before it submitted. */
  function ReplayError(log: seq<Envelope>): Option<TaskId> {
    if log == [] then None else
      var n := |log| - 1;
      if ReplayError(log[..n]).Some? then ReplayError(log[..n])
      else if Replay(log[..n]).Some? && Apply(Replay(log[..n]).value, log[n].event, log[n].at).None?
      then Some(log[n].event.Id()) else None
  }

  lemma {:induction false} ReplayFails(log: seq<Envelope>, n: nat)
    requires n <= |log| && ReplayError(log[..n]).Some?
    ensures ReplayError(log) == ReplayError(log[..n])
    decreases |log|
  {
    if n < |log| {
      assert log[..|log| - 1][..n] == log[..n];
      ReplayFails(log[..|log| - 1], n);
    } else {
      assert log[..n] == log;
    }
  }

  lemma {:induction false} ReplayFailsOrNot(log: seq<Envelope>)
    ensures ReplayError(log).Some? <==> Replay(log).None?
  {
    if log != [] {
      ReplayFailsOrNot(log[..|log| - 1]);
    }
  }

  /** The index an opening derives: under each key the last task in id order. */
  ghost predicate Derived(tasks: Tasks, index: map<string, TaskId>) {
    && (forall key :: key in index ==> index[key] in tasks && tasks[index[key]].key == key)
    && (forall id :: id in tasks ==>
          tasks[id].key in index && (index[tasks[id].key] == id || Less(id, index[tasks[id].key])))
  }

  /** Where keys are distinct it is the index. */
  lemma DerivedIndex(tasks: Tasks, index: map<string, TaskId>)
    requires Orderly(tasks) && Derived(tasks, index)
    ensures Indexed(tasks, index)
  {
  }

  /** The first pending task among some tasks. */
  predicate FirstAmong(tasks: Tasks, some: set<TaskId>, first: Option<TaskId>) {
    && (first.Some? ==> first.value in tasks && first.value in some && tasks[first.value].status == Pending)
    && (forall id :: id in some && id in tasks && tasks[id].status == Pending ==>
          first.Some? && (id == first.value || Earlier(tasks[first.value], tasks[id])))
  }

  lemma FirstGrows(tasks: Tasks, some: set<TaskId>, first: Option<TaskId>, id: TaskId)
    requires Orderly(tasks) && FirstAmong(tasks, some, first) && id in tasks
    ensures var takes := tasks[id].status == Pending && (first.None? || Earlier(tasks[id], tasks[first.value]));
            FirstAmong(tasks, some + {id}, if takes then Some(id) else first)
  {
    EarlierIsTotal(tasks, id);
  }

  lemma EarlierIsTotal(tasks: Tasks, id: TaskId)
    requires Orderly(tasks) && id in tasks
    ensures forall other :: other in tasks && other != id ==>
        Earlier(tasks[id], tasks[other]) || Earlier(tasks[other], tasks[id])
    ensures forall a, b :: a in tasks && b in tasks && Earlier(tasks[id], tasks[a]) && Earlier(tasks[a], tasks[b]) ==>
        Earlier(tasks[id], tasks[b])
  {
    LessIsTotal();
  }

  /** Live state and log belong together. */
  ghost predicate Consistent(
    log: seq<Envelope>, clock: seq<nat>, tasks: Tasks, index: map<string, TaskId>, next: nat)
  {
    Happened(log, clock) && Replay(log) == Some(tasks) && Indexed(tasks, index) && next == |log|
  }

  lemma ConsistentAppend(
    log: seq<Envelope>, clock: seq<nat>, tasks: Tasks, index: map<string, TaskId>, next: nat, e: Event, at: nat,
    now: nat)
    requires Consistent(log, clock, tasks, index, next) && Admitted(tasks, e, now)
    ensures Apply(tasks, e, at).Some?
    ensures Consistent(log + [Envelope(next, at, e)], clock + [now], Apply(tasks, e, at).value,
              if e.Submitted? then index[e.task.key := e.task.id] else index, next + 1)
  {
    HistoriesAreOrderly(log, clock);
    AdmittedApplies(tasks, e, at, now);
    HappenedAppend(log, clock, Envelope(next, at, e), now);
    ReplayAppend(log, Envelope(next, at, e));
    if e.Submitted? {
      SubmittedIndex(tasks, index, e.task);
    } else {
      ShapeOf(tasks, e, at, now);
      ChangedIndex(tasks, index, e.id, Changed(tasks[e.id], e, at));
    }
  }

  lemma ShapeOf(tasks: Tasks, e: Event, at: nat, now: nat)
    requires Orderly(tasks) && Admitted(tasks, e, now) && !e.Submitted?
    ensures Changed(tasks[e.id], e, at).key == tasks[e.id].key
  {
  }

  /** Live state is what a replay of the log gives: opening it again finds the same tasks,
      the same index and the same next number. */
  lemma ReplayIsLiveState(log: seq<Envelope>, clock: seq<nat>, tasks: Tasks, index: map<string, TaskId>, next: nat,
                          tasks': Tasks, index': map<string, TaskId>)
    requires Consistent(log, clock, tasks, index, next)
    requires Replay(log) == Some(tasks') && Indexed(tasks', index')
    ensures tasks' == tasks && index' == index && NextOf(log) == next
  {
    IndexIsUnique(tasks, index, index');
    HistoriesAreNumbered(log, clock);
  }

  /** A lease that was found expired at some time, after the first `i` records, is expired
      for good: the live ledger refuses every worker that still speaks for the task, under
      any claim, at any time the host's clock can show from then on. */
  lemma LateWorkersAreRefused(
    log: seq<Envelope>, clock: seq<nat>, tasks: Tasks, index: map<string, TaskId>, next: nat,
    i: nat, id: TaskId, seen: nat, token: Token, now: nat)
    requires Consistent(log, clock, tasks, index, next) && Rising(clock) && LastTime(clock) <= now
    requires i <= |log| && id in At(log, i) && Expired(At(log, i)[id], seen)
    requires seen <= if i < |log| then clock[i] else now
    ensures LeaseRefusal(tasks, id, token, now).Some?
    ensures forall expires :: HeartbeatRefusal(tasks, id, token, now, expires).Some?
  {
    FencedSince(log, clock, i, |log|, id, seen);
    assert log[..|log|] == log;
    HistoriesAreOrderly(log, clock);
    if i < |log| {
      assert clock[i] <= clock[|log| - 1];
    }
  }
}

/** Its operations. */
module LedgerOperations {
  import opened Wrappers
  import opened Ids
  import opened Ledger
  import opened LedgerStore

  /** `log` holds the records that were acknowledged. */
  class TaskLedger {
    var log: seq<Envelope>
    var tasks: Tasks
    var idempotency: map<string, TaskId>
    var nextSequence: nat
    ghost var clock: seq<nat>

    ghost predicate Valid()
      reads this
    {
      Consistent(log, clock, tasks, idempotency, nextSequence)
    }

    constructor ()
      ensures Valid() && log == [] && clock == []
    {
      log, tasks, idempotency, nextSequence, clock := [], map[], map[], 0, [];
    }

    constructor Restored(
      log: seq<Envelope>, tasks: Tasks, index: map<string, TaskId>, next: nat, ghost clock: seq<nat>)
      ensures this.log == log && this.tasks == tasks && idempotency == index
      ensures nextSequence == next && this.clock == clock
    {
      this.log, this.tasks, idempotency, nextSequence := log, tasks, index, next;
      this.clock := clock;
    }

    /** Replays any log, then derives the index from the tasks in id order; an event about a
        task nobody submitted is refused. */
    static method Open(log: seq<Envelope>, ghost clock: seq<nat>) returns (r: Result<TaskLedger, Refusal>)
      ensures r.Ok? ==> fresh(r.value) && r.value.log == log && r.value.clock == clock
      ensures r.Ok? ==> Replay(log) == Some(r.value.tasks) && r.value.nextSequence == NextOf(log)
      ensures r.Ok? ==> Derived(r.value.tasks, r.value.idempotency)
      ensures r.Ok? && Happened(log, clock) ==> r.value.Valid()
      ensures r.Err? <==> Replay(log).None?
      ensures r.Err? ==> ReplayError(log).Some? && r.error == UnknownTask(ReplayError(log).value)
    {
      var replayed, next := ReplayLog(log);
      if replayed.Err? {
        ReplayFailsOrNot(log);
        return Err(replayed.error);
      }
      var index := IndexTasks(replayed.value);
      var ledger := new TaskLedger.Restored(log, replayed.value, index, next, clock);
      if Happened(log, clock) {
        HistoriesAreOrderly(log, clock);
        HistoriesAreNumbered(log, clock);
        DerivedIndex(replayed.value, index);
      }
      r := Ok(ledger);
    }

    static method ReplayLog(log: seq<Envelope>) returns (replayed: Result<Tasks, Refusal>, next: nat)
      ensures replayed.Ok? ==> Replay(log) == Some(replayed.value) && next == NextOf(log)
      ensures replayed.Err? ==> ReplayError(log).Some? && replayed.error == UnknownTask(ReplayError(log).value)
    {
      var tasks: Tasks, n := map[], 0;
      next := 0;
      assert log[..0] == [];
      while n < |log|
        invariant 0 <= n <= |log| && next == NextOf(log[..n])
        invariant Replay(log[..n]) == Some(tasks) && ReplayError(log[..n]) == None
      {
        assert log[..n + 1] == log[..n] + [log[n]] && log[..n + 1][..n] == log[..n];
        next := if next <= log[n].sequence + 1 then log[n].sequence + 1 else next;
        var applied := Apply(tasks, log[n].event, log[n].at);
        if applied.None? {
          ReplayFails(log, n + 1);
          return Err(UnknownTask(log[n].event.Id())), next;
        }
        tasks, n := applied.value, n + 1;
      }
      assert log[..n] == log;
      replayed := Ok(tasks);
    }

    static method IndexTasks(tasks: Tasks) returns (index: map<string, TaskId>)
      ensures Derived(tasks, index)
    {
      index := map[];
      var ids := tasks.Keys;
      while ids != {}
        invariant ids <= tasks.Keys
        invariant forall a, b :: a in tasks && a !in ids && b in ids ==> Less(a, b)
        invariant forall key :: key in index ==>
            index[key] in tasks && index[key] !in ids && tasks[index[key]].key == key
        invariant forall id :: id in tasks && id !in ids ==>
            tasks[id].key in index && (index[tasks[id].key] == id || Less(id, index[tasks[id].key]))
        decreases ids
      {
        var id := LeastId(ids);
        IdsAreOrdered();
        ids := ids - {id};
        index := index[tasks[id].key := id];
      }
    }

    /** Writes one event and applies it; if the write fails the ledger is as it was. */
    method Append(event: Event, ghost now: nat) returns (ok: bool, ghost at: nat)
      requires Valid() && Admitted(tasks, event, now)
      modifies this
      ensures Valid()
      ensures ok ==> Logged(old(log), log, event) && clock == old(clock) + [now]
      ensures ok ==> Apply(old(tasks), event, at) == Some(tasks)
      ensures !ok ==> Unmoved(old(log), old(clock), old(tasks), log, clock, tasks)
    {
      var time: nat, failed: bool := *, *;
      at, ok := time, !failed;
      if failed {
        return;
      }
      ConsistentAppend(log, clock, tasks, idempotency, nextSequence, event, time, now);
      log := log + [Envelope(nextSequence, time, event)];
      clock := clock + [now];
      tasks := Apply(tasks, event, time).value;
      if event.Submitted? {
        idempotency := idempotency[event.task.key := event.task.id];
      }
      nextSequence := nextSequence + 1;
    }

    /** Appends an event about a known task and returns what it became. */
    method Step(event: Event, ghost now: nat) returns (r: Result<Task, Refusal>)
      requires Valid() && Admitted(tasks, event, now) && event.Id() in tasks
      modifies this
      ensures Valid() && (r.Err? ==> r.error == WriteFailed)
      ensures r.Err? ==> Unmoved(old(log), old(clock), old(tasks), log, clock, tasks)
      ensures r.Ok? ==> Logged(old(log), log, event) && clock == old(clock) + [now]
      ensures r.Ok? ==> event.Id() in tasks && r.value == tasks[event.Id()]
    {
      var ok;
      ghost var at;
      ok, at := Append(event, now);
      r := if ok then Ok(tasks[event.Id()]) else Err(WriteFailed);
    }

    /** Returns the task stored under a key, or stores a new one under it. */
    method Submit(key: string, payload: string, freshId: TaskId)
      returns (r: Result<Task, Refusal>, created: bool)
      requires Valid() && freshId !in tasks
      modifies this
      ensures Valid() && (r.Err? ==> r.error == WriteFailed && KeyFree(old(tasks), key))
      ensures r.Ok? ==> created == KeyFree(old(tasks), key)
      ensures r.Ok? && created ==>
          Logged(old(log), log, Submitted(r.value)) && clock == old(clock) + [LastTime(old(clock))]
      ensures r.Ok? && created ==> r.value == NewTask(freshId, key, payload, r.value.created)
      ensures r.Err? || !created ==> Unmoved(old(log), old(clock), old(tasks), log, clock, tasks)
      ensures r.Ok? && !created ==> r.value.id in tasks && tasks[r.value.id] == r.value && r.value.key == key
    {
      MissingKeyIsFree(tasks, idempotency, key);
      if key in idempotency && idempotency[key] in tasks {
        HistoriesAreOrderly(log, clock);
        return Ok(tasks[idempotency[key]]), false;
      }
      var now: nat := *;
      var task, ok := NewTask(freshId, key, payload, now), false;
      ghost var at;
      ok, at := Append(Submitted(task), LastTime(clock));
      r, created := if ok then Ok(task) else Err(WriteFailed), true;
    }

    /** The pending task submitted first, ties broken by id. */
    method SelectPending() returns (first: Option<TaskId>)
      requires Valid()
      ensures first.Some? ==> FirstPending(tasks, first.value)
      ensures first.None? ==> forall id :: id in tasks ==> tasks[id].status != Pending
    {
      first := None;
      var ids := tasks.Keys;
      HistoriesAreOrderly(log, clock);
      while ids != {}
        invariant ids <= tasks.Keys && Orderly(tasks) && FirstAmong(tasks, tasks.Keys - ids, first)
        decreases ids
      {
        var id := LeastId(ids);
        FirstGrows(tasks, tasks.Keys - ids, first, id);
        assert tasks.Keys - (ids - {id}) == (tasks.Keys - ids) + {id};
        ids := ids - {id};
        if tasks[id].status == Pending && (first.None? || Earlier(tasks[id], tasks[first.value])) {
          first := Some(id);
        }
      }
    }

    method ClaimNext(worker: string, now: nat, duration: nat) returns (r: Result<Option<Task>, Refusal>)
      requires Valid()
      modifies this
      ensures Valid() && (r.Err? ==> r.error == WriteFailed)
      ensures r == Ok(None) ==> forall id :: id in tasks ==> tasks[id].status != Pending
      ensures r.Err? || r == Ok(None) ==> Unmoved(old(log), old(clock), old(tasks), log, clock, tasks)
      ensures r.Ok? && r.value.Some? ==>
          var task := r.value.value;
          && FirstPending(old(tasks), task.id) && task.id in tasks && tasks[task.id] == task
          && Logged(old(log), log, Claimed(task.id, Lease(worker, LeaseEnd(now, duration))))
          && clock == old(clock) + [now]
    {
      var first := SelectPending();
      if first.None? {
        return Ok(None);
      }
      HistoriesAreOrderly(log, clock);
      var claimed := Step(Claimed(first.value, Lease(worker, LeaseEnd(now, duration))), now);
      HistoriesAreOrderly(log, clock);
      r := if claimed.Ok? then Ok(Some(claimed.value)) else Err(claimed.error);
    }

    method Heartbeat(id: TaskId, token: Token, now: nat, expires: nat) returns (r: Result<Task, Refusal>)
      requires Valid()
      modifies this
      ensures Valid()
      ensures var refusal := HeartbeatRefusal(old(tasks), id, token, now, expires);
              if refusal.Some? then r == Err(refusal.value) else r.Ok? || r == Err(WriteFailed)
      ensures r.Err? ==> Unmoved(old(log), old(clock), old(tasks), log, clock, tasks)
      ensures r.Ok? ==> Logged(old(log), log, Event.Heartbeat(id, expires)) && clock == old(clock) + [now]
      ensures r.Ok? ==> id in tasks && r.value == tasks[id]
    {
      var refusal := HeartbeatRefusal(tasks, id, token, now, expires);
      if refusal.Some? {
        return Err(refusal.value);
      }
      r := Step(Event.Heartbeat(id, expires), now);
    }

    /** Success and failure: only under the current claim and while its lease is live. */
    method Finish(token: Token, now: nat, event: Event) returns (r: Result<Task, Refusal>)
      requires Valid() && (event.Succeed? || event.Fail?)
      modifies this
      ensures Valid()
      ensures var refusal := LeaseRefusal(old(tasks), event.id, token, now);
              if refusal.Some? then r == Err(refusal.value) else r.Ok? || r == Err(WriteFailed)
      ensures r.Err? ==> Unmoved(old(log), old(clock), old(tasks), log, clock, tasks)
      ensures r.Ok? ==> Logged(old(log), log, event) && clock == old(clock) + [now]
      ensures r.Ok? ==> event.id in tasks && r.value == tasks[event.id]
    {
      var refusal := LeaseRefusal(tasks, event.id, token, now);
      if refusal.Some? {
        return Err(refusal.value);
      }
      r := Step(event, now);
    }

    /** Marks every task whose lease has run out, in id order; nothing else changes. A write
        that fails stops it, with `left` still to be marked. */
    method RecoverExpired(now: nat)
      returns (r: Result<seq<Task>, Refusal>, ghost marked: seq<Task>, ghost left: set<TaskId>)
      requires Valid()
      modifies this
      ensures Valid() && Marking(old(tasks), tasks, now, left, old(log), log, old(clock), clock, marked)
      ensures if left == {} then r == Ok(marked) else r == Err(WriteFailed)
    {
      var recovered: seq<Task>, ids := [], ExpiredIds(tasks, now);
      marked, left := recovered, ids;
      MarkingBegins(tasks, now, log, clock);
      while ids != {}
        invariant Valid() && Marking(old(tasks), tasks, now, ids, old(log), log, old(clock), clock, recovered)
        invariant marked == recovered && left == ids
        decreases ids
      {
        var id := LeastId(ids);
        var task := MarkNext(id, now, old(tasks), ids, old(log), old(clock), recovered);
        if task.Err? {
          return Err(task.error), marked, left;
        }
        ids, recovered := ids - {id}, recovered + [task.value];
        marked, left := recovered, ids;
      }
      r := Ok(recovered);
    }

    method MarkNext(
      id: TaskId, now: nat, ghost before: Tasks, ghost ids: set<TaskId>, ghost logBefore: seq<Envelope>,
      ghost clockBefore: seq<nat>, ghost recovered: seq<Task>)
      returns (r: Result<Task, Refusal>)
      requires Valid() && Marking(before, tasks, now, ids, logBefore, log, clockBefore, clock, recovered)
      requires IsLeast(id, ids, Less)
      modifies this
      ensures Valid() && (r.Err? ==> r.error == WriteFailed)
      ensures r.Err? ==> Unmoved(old(log), old(clock), old(tasks), log, clock, tasks)
      ensures r.Ok? ==>
          Marking(before, tasks, now, ids - {id}, logBefore, log, clockBefore, clock, recovered + [r.value])
    {
      HistoriesAreOrderly(log, clock);
      MarkReady(before, tasks, now, ids, logBefore, log, clockBefore, clock, recovered, id);
      ghost var tasksThen, logThen, clockThen := tasks, log, clock;
      var ok;
      ghost var at;
      ok, at := Append(MarkUnknown(id, LEASE_EXPIRED), now);
      if !ok {
        return Err(WriteFailed);
      }
      MarkingStep(before, tasksThen, now, ids, logBefore, logThen, clockBefore, clockThen, recovered, id, at, log,
          tasks);
      r := Ok(tasks[id]);
    }

    method CancelTask(id: TaskId, reason: string) returns (r: Result<Task, Refusal>)
      requires Valid()
      modifies this
      ensures Valid()
      ensures var refusal := CancelRefusal(old(tasks), id);
              if refusal.Some? then r == Err(refusal.value) else r.Ok? || r == Err(WriteFailed)
      ensures r.Err? ==> Unmoved(old(log), old(clock), old(tasks), log, clock, tasks)
      ensures r.Ok? ==> Logged(old(log), log, Cancel(id, reason)) && clock == old(clock) + [LastTime(old(clock))]
      ensures r.Ok? ==> id in tasks && r.value == tasks[id]
    {
      var refusal := CancelRefusal(tasks, id);
      if refusal.Some? {
        return Err(refusal.value);
      }
      r := Step(Cancel(id, reason), LastTime(clock));
    }

    method AcknowledgeDelivery(id: TaskId) returns (r: Result<Task, Refusal>)
      requires Valid()
      modifies this
      ensures Valid()
      ensures var refusal := AcknowledgeRefusal(old(tasks), id);
              if refusal.Some? then r == Err(refusal.value) else r.Ok? || r == Err(WriteFailed)
      ensures r.Err? ==> Unmoved(old(log), old(clock), old(tasks), log, clock, tasks)
      ensures r.Ok? ==> Logged(old(log), log, Acknowledge(id)) && clock == old(clock) + [LastTime(old(clock))]
      ensures r.Ok? ==> id in tasks && r.value == tasks[id]
    {
      var refusal := AcknowledgeRefusal(tasks, id);
      if refusal.Some? {
        return Err(refusal.value);
      }
      r := Step(Acknowledge(id), LastTime(clock));
    }
  }

  lemma IdsAreOrdered()
    ensures forall a: TaskId, b: TaskId :: Less(a, b) || Less(b, a) || a == b
    ensures forall a: TaskId, b: TaskId, c: TaskId :: Less(a, b) && Less(b, c) ==> Less(a, c)
  {
    LessIsTotal();
  }
}
