/** The task ledger as its log defines it: what each event does to the tasks, which event
    may be appended when, and what every such history keeps. */
module Ledger {
  import opened Wrappers
  import opened Ids

  type TaskId = string
  type Tasks = map<TaskId, Task>

  /** The highest time a 64-bit clock shows; lease ends stop there. */
  const MAX_TIME: nat := 0xFFFF_FFFF_FFFF_FFFF

  datatype Status = Pending | Running | Succeeded | Failed | Cancelled | Unknown {
    predicate Terminal() {
      Succeeded? || Failed? || Cancelled? || Unknown?
    }
  }

  datatype Delivery = NotReady | Awaiting | Acknowledged
  datatype Lease = Lease(worker: string, expires: nat)
  datatype Token = Token(worker: string, attempt: nat)

  datatype Task = Task(
    id: TaskId, key: string, payload: string, status: Status, attempt: nat, lease: Option<Lease>,
    result: Option<string>, error: Option<string>, delivery: Delivery, created: nat, updated: nat)

  datatype Event =
    | Submitted(task: Task)
    | Claimed(id: TaskId, lease: Lease)
    | Heartbeat(id: TaskId, expires: nat)
    | Succeed(id: TaskId, result: string)
    | Fail(id: TaskId, error: string)
    | Cancel(id: TaskId, error: string)
    | MarkUnknown(id: TaskId, error: string)
    | Acknowledge(id: TaskId)
  {
    function Id(): TaskId {
      if Submitted? then task.id else id
    }
  }

  datatype Envelope = Envelope(sequence: nat, at: nat, event: Event)

  function NewTask(id: TaskId, key: string, payload: string, now: nat): Task {
    Task(id, key, payload, Pending, 0, None, None, None, NotReady, now, now)
  }

  function Ended(task: Task, status: Status, error: Option<string>, at: nat): Task {
    task.(status := status, lease := None, error := error, delivery := Awaiting, updated := at)
  }

  function Changed(task: Task, e: Event, at: nat): Task {
    match e
    case Submitted(new_) => new_
    case Claimed(_, lease) => task.(status := Running, attempt := task.attempt + 1, lease := Some(lease), updated := at)
    case Heartbeat(_, expires) =>
      task.(lease := if task.lease.Some? then Some(task.lease.value.(expires := expires)) else None, updated := at)
    case Succeed(_, result) => Ended(task, Succeeded, None, at).(result := Some(result))
    case Fail(_, error) => Ended(task, Failed, Some(error), at)
    case Cancel(_, error) => Ended(task, Cancelled, Some(error), at)
    case MarkUnknown(_, error) => Ended(task, Unknown, Some(error), at)
    case Acknowledge(_) => task.(delivery := Acknowledged, updated := at)
  }

  /** One event of a replay; None for an event about a task that does not exist. */
  function Apply(tasks: Tasks, e: Event, at: nat): Option<Tasks> {
    if e.Submitted? then Some(tasks[e.task.id := e.task])
    else if e.id !in tasks then None
    else Some(tasks[e.id := Changed(tasks[e.id], e, at)])
  }

  function Replay(log: seq<Envelope>): Option<Tasks> {
    if log == [] then Some(map[]) else
      var before, last := Replay(log[..|log| - 1]), log[|log| - 1];
      if before.None? then None else Apply(before.value, last.event, last.at)
  }

  lemma ReplayAppend(log: seq<Envelope>, e: Envelope)
    requires Replay(log).Some?
    ensures Replay(log + [e]) == Apply(Replay(log).value, e.event, e.at)
  {
    assert (log + [e])[..|log + [e]| - 1] == log;
  }

  // ---- What may be appended ----

  function LeaseEnd(now: nat, duration: nat): nat {
    var end := now + if duration < 1 then 1 else duration;
    if end > MAX_TIME then MAX_TIME else end
  }

  /** A running task whose lease has not run out. */
  predicate Live(task: Task, now: nat) {
    task.status == Running && task.lease.Some? && now < task.lease.value.expires
  }

  predicate Expired(task: Task, now: nat) {
    task.status == Running && task.lease.Some? && task.lease.value.expires <= now
  }

  predicate Earlier(a: Task, b: Task) {
    a.created < b.created || (a.created == b.created && Less(a.id, b.id))
  }

  /** The pending task that was submitted first. */
  predicate FirstPending(tasks: Tasks, id: TaskId) {
    && id in tasks && tasks[id].status == Pending
    && forall other :: other in tasks && tasks[other].status == Pending && other != id ==>
         Earlier(tasks[id], tasks[other])
  }

  predicate KeyFree(tasks: Tasks, key: string) {
    forall id :: id in tasks ==> tasks[id].key != key
  }

  /** What the operations let into the log, at a time the host says it is. */
  ghost predicate Admitted(tasks: Tasks, e: Event, now: nat) {
    match e
    case Submitted(task) =>
      task.id !in tasks && KeyFree(tasks, task.key) && task == NewTask(task.id, task.key, task.payload, task.created)
    case Claimed(id, lease) => FirstPending(tasks, id) && exists duration :: lease.expires == LeaseEnd(now, duration)
    case Heartbeat(id, expires) => id in tasks && Live(tasks[id], now) && expires > tasks[id].lease.value.expires
    case Succeed(id, _) => id in tasks && Live(tasks[id], now)
    case Fail(id, _) => id in tasks && Live(tasks[id], now)
    case Cancel(id, _) => id in tasks && !tasks[id].status.Terminal()
    case MarkUnknown(id, _) => id in tasks && Expired(tasks[id], now)
    case Acknowledge(id) => id in tasks && tasks[id].delivery == Awaiting
  }

  /** A log written by the operations; `clock[i]` is what the host said when record i was written. */
  ghost predicate Happened(log: seq<Envelope>, clock: seq<nat>) {
    && |clock| == |log|
    && (log == [] ||
        var n := |log| - 1;
        && Happened(log[..n], clock[..n])
        && Replay(log[..n]).Some? && Admitted(Replay(log[..n]).value, log[n].event, clock[n])
        && log[n].sequence == n)
  }

  lemma HappenedAppend(log: seq<Envelope>, clock: seq<nat>, e: Envelope, now: nat)
    requires Happened(log, clock) && Replay(log).Some? && Admitted(Replay(log).value, e.event, now)
        && e.sequence == |log|
    ensures Happened(log + [e], clock + [now])
  {
    assert (log + [e])[..|log + [e]| - 1] == log && (clock + [now])[..|log + [e]| - 1] == clock;
  }

  /** The host's clock never goes back. */
  predicate Rising(clock: seq<nat>) {
    forall i, j :: 0 <= i < j < |clock| ==> clock[i] <= clock[j]
  }

  /** What the host's clock said last. */
  function LastTime(clock: seq<nat>): nat {
    if clock == [] then 0 else clock[|clock| - 1]
  }

  function Repeated(now: nat, n: nat): (times: seq<nat>)
    ensures |times| == n && forall i :: 0 <= i < n ==> times[i] == now
  {
    seq(n, _ => now)
  }

  /** Records written at a time that is not before the last keep it so. */
  lemma ClockStaysRising(clock: seq<nat>, now: nat, n: nat)
    requires Rising(clock) && LastTime(clock) <= now
    ensures Rising(clock + Repeated(now, n)) && LastTime(clock + Repeated(now, n)) <= now
  {
    forall i | 0 <= i < |clock| ensures clock[i] <= now {
      assert clock[i] <= clock[|clock| - 1];
    }
  }

  // ---- What every history keeps ----

  /** A task is running exactly while it is leased, has a result exactly if it succeeded and
      an error exactly if it ended otherwise, is to be delivered exactly once it has ended,
      and was claimed once if it was ever running. */
  predicate Shaped(task: Task) {
    && (task.status == Running <==> task.lease.Some?)
    && (task.result.Some? <==> task.status == Succeeded)
    && (task.error.Some? <==> task.status == Failed || task.status == Cancelled || task.status == Unknown)
    && (task.delivery == NotReady <==> !task.status.Terminal())
    && (task.status == Pending ==> task.attempt == 0)
    && (task.status == Running ==> task.attempt == 1)
    && task.attempt <= 1
  }

  predicate Orderly(tasks: Tasks) {
    && (forall id :: id in tasks ==> Shaped(tasks[id]) && tasks[id].id == id)
    && (forall a, b :: a in tasks && b in tasks && tasks[a].key == tasks[b].key ==> a == b)
  }

  lemma ShapeStep(task: Task, e: Event, at: nat, now: nat)
    requires !e.Submitted? && Shaped(task)
    requires match e
             case Claimed(_, _) => task.status == Pending
             case Heartbeat(_, _) => Live(task, now)
             case Succeed(_, _) => Live(task, now)
             case Fail(_, _) => Live(task, now)
             case Cancel(_, _) => !task.status.Terminal()
             case MarkUnknown(_, _) => Expired(task, now)
             case Acknowledge(_) => task.delivery == Awaiting
             case _ => true
    ensures Shaped(Changed(task, e, at)) && Changed(task, e, at).id == task.id && Changed(task, e, at).key == task.key
  {
  }

  lemma AdmittedApplies(tasks: Tasks, e: Event, at: nat, now: nat)
    requires Orderly(tasks) && Admitted(tasks, e, now)
    ensures Apply(tasks, e, at).Some? && Orderly(Apply(tasks, e, at).value)
  {
    if !e.Submitted? {
      ShapeStep(tasks[e.id], e, at, now);
    }
  }

  /** Every history replays, to tasks of the right shape under distinct keys. */
  lemma {:induction false} HistoriesAreOrderly(log: seq<Envelope>, clock: seq<nat>)
    requires Happened(log, clock)
    ensures Replay(log).Some? && Orderly(Replay(log).value)
  {
    if log != [] {
      var n := |log| - 1;
      HistoriesAreOrderly(log[..n], clock[..n]);
      AdmittedApplies(Replay(log[..n]).value, log[n].event, log[n].at, clock[n]);
    }
  }

  lemma {:induction false} HappenedPrefix(log: seq<Envelope>, clock: seq<nat>, i: nat)
    requires Happened(log, clock) && i <= |log|
    ensures Happened(log[..i], clock[..i])
    decreases |log|
  {
    if i == |log| {
      assert log[..i] == log && clock[..i] == clock;
    } else {
      var n := |log| - 1;
      HappenedPrefix(log[..n], clock[..n], i);
      assert log[..n][..i] == log[..i] && clock[..n][..i] == clock[..i];
    }
  }

  /** The tasks before record i. */
  function At(log: seq<Envelope>, i: nat): Tasks
    requires i <= |log|
  {
    var replayed := Replay(log[..i]);
    if replayed.Some? then replayed.value else map[]
  }

  /** One record of a history: it was admitted where it stands and does what applying it does. */
  lemma RecordStep(log: seq<Envelope>, clock: seq<nat>, i: nat)
    requires Happened(log, clock) && i < |log|
    ensures Orderly(At(log, i)) && Orderly(At(log, i + 1)) && Admitted(At(log, i), log[i].event, clock[i])
    ensures Apply(At(log, i), log[i].event, log[i].at) == Some(At(log, i + 1))
  {
    HappenedPrefix(log, clock, i);
    HappenedPrefix(log, clock, i + 1);
    HistoriesAreOrderly(log[..i], clock[..i]);
    HistoriesAreOrderly(log[..i + 1], clock[..i + 1]);
    assert log[..i + 1][..i] == log[..i] && clock[..i + 1][..i] == clock[..i];
    assert log[..i + 1] == log[..i] + [log[i]];
    ReplayAppend(log[..i], log[i]);
  }

  /** What one record can do to one task. */
  lemma TaskStep(log: seq<Envelope>, clock: seq<nat>, i: nat, id: TaskId)
    requires Happened(log, clock) && i < |log| && id in At(log, i)
    ensures id in At(log, i + 1) && Shaped(At(log, i)[id])
    ensures log[i].event.Id() != id ==> At(log, i + 1)[id] == At(log, i)[id]
    ensures log[i].event.Id() == id ==>
        !log[i].event.Submitted? && At(log, i + 1)[id] == Changed(At(log, i)[id], log[i].event, log[i].at)
    ensures Admitted(At(log, i), log[i].event, clock[i])
  {
    RecordStep(log, clock, i);
  }

  /** A worker's claim on a task is over: it has ended, or its lease has run out. */
  predicate Fenced(task: Task, expires: nat) {
    || (task.status == Running && task.lease.Some? && task.lease.value.expires == expires)
    || task.status == Cancelled || task.status == Unknown
  }

  lemma FencedStep(task: Task, e: Event, at: nat, now: nat, expires: nat)
    requires Shaped(task) && Fenced(task, expires) && expires <= now && !e.Submitted?
    requires e.Heartbeat? || e.Succeed? || e.Fail? ==> Live(task, now)
    requires e.Claimed? ==> task.status == Pending
    ensures !e.Heartbeat? && !e.Succeed? && !e.Fail? && !e.Claimed? && Fenced(Changed(task, e, at), expires)
  {
  }

  /** Once the lease of a running task has run out by the host's clock, no heartbeat, no
      success and no failure is ever accepted for it: it stays as it is until it is
      cancelled or marked unknown. */
  lemma ExpiredLeasesAreFenced(log: seq<Envelope>, clock: seq<nat>, i: nat, j: nat, id: TaskId)
    requires Happened(log, clock) && Rising(clock) && i < j <= |log|
    requires id in At(log, i) && Expired(At(log, i)[id], clock[i])
    ensures id in At(log, j) && Fenced(At(log, j)[id], At(log, i)[id].lease.value.expires)
    ensures forall k :: i <= k < j && log[k].event.Id() == id ==>
              log[k].event.Cancel? || log[k].event.MarkUnknown? || log[k].event.Acknowledge?
  {
    FencedSince(log, clock, i, j, id, clock[i]);
  }

  /** The same from any time `seen` on at which the lease was found expired. */
  lemma {:induction false} FencedSince(
    log: seq<Envelope>, clock: seq<nat>, i: nat, j: nat, id: TaskId, seen: nat)
    requires Happened(log, clock) && i <= j <= |log| && forall k :: i <= k < j ==> seen <= clock[k]
    requires id in At(log, i) && Expired(At(log, i)[id], seen)
    ensures id in At(log, j) && Fenced(At(log, j)[id], At(log, i)[id].lease.value.expires)
    ensures forall k :: i <= k < j && log[k].event.Id() == id ==>
              log[k].event.Cancel? || log[k].event.MarkUnknown? || log[k].event.Acknowledge?
    decreases j
  {
    if i < j {
      FencedSince(log, clock, i, j - 1, id, seen);
      FencedAt(log, clock, j - 1, id, At(log, i)[id].lease.value.expires);
    }
  }

  lemma FencedAt(log: seq<Envelope>, clock: seq<nat>, k: nat, id: TaskId, expires: nat)
    requires Happened(log, clock) && k < |log| && id in At(log, k) && Fenced(At(log, k)[id], expires)
        && expires <= clock[k]
    ensures id in At(log, k + 1) && Fenced(At(log, k + 1)[id], expires)
    ensures log[k].event.Id() == id ==> log[k].event.Cancel? || log[k].event.MarkUnknown? || log[k].event.Acknowledge?
  {
    TaskStep(log, clock, k, id);
    if log[k].event.Id() == id {
      FencedStep(At(log, k)[id], log[k].event, log[k].at, clock[k], expires);
    }
  }

  predicate SameEnd(a: Task, b: Task) {
    b.status == a.status && b.result == a.result && b.error == a.error && b.attempt == a.attempt && b.lease == None
  }

  lemma EndedStep(task: Task, e: Event, at: nat, now: nat)
    requires Shaped(task) && task.status.Terminal() && !e.Submitted?
    requires e.Heartbeat? || e.Succeed? || e.Fail? ==> Live(task, now)
    requires e.Claimed? ==> task.status == Pending
    requires e.Cancel? ==> !task.status.Terminal()
    requires e.MarkUnknown? ==> Expired(task, now)
    ensures e.Acknowledge? && SameEnd(task, Changed(task, e, at))
  {
  }

  /** How a task ended never changes again; its delivery is acknowledged at most once. */
  lemma {:induction false} EndsAreFinal(log: seq<Envelope>, clock: seq<nat>, i: nat, j: nat, id: TaskId)
    requires Happened(log, clock) && i <= j <= |log|
    requires id in At(log, i) && At(log, i)[id].status.Terminal()
    ensures id in At(log, j) && SameEnd(At(log, i)[id], At(log, j)[id])
    ensures At(log, i)[id].delivery == Acknowledged ==> At(log, j)[id] == At(log, i)[id]
  {
    if i == j {
      HappenedPrefix(log, clock, i);
      HistoriesAreOrderly(log[..i], clock[..i]);
    } else {
      EndsAreFinal(log, clock, i, j - 1, id);
      var k := j - 1;
      TaskStep(log, clock, k, id);
      if log[k].event.Id() == id {
        EndedStep(At(log, k)[id], log[k].event, log[k].at, clock[k]);
      }
    }
  }

  /** How often a task was claimed. */
  function Claims(log: seq<Envelope>, id: TaskId): nat {
    if log == [] then 0 else
      var last := log[|log| - 1].event;
      Claims(log[..|log| - 1], id) + if last.Claimed? && last.id == id then 1 else 0
  }

  /** A task is claimed at most once, and its attempt counts its claims. */
  lemma {:induction false} ClaimedAtMostOnce(log: seq<Envelope>, clock: seq<nat>, id: TaskId)
    requires Happened(log, clock)
    ensures Claims(log, id) <= 1
    ensures Claims(log, id) == if id in At(log, |log|) then At(log, |log|)[id].attempt else 0
  {
    assert log[..|log|] == log;
    if log != [] {
      var n := |log| - 1;
      ClaimedAtMostOnce(log[..n], clock[..n], id);
      assert At(log[..n], n) == At(log, n) by {
        assert log[..n][..n] == log[..n];
      }
      RecordStep(log, clock, n);
    }
  }

  /** The same claim, held strictly longer. */
  predicate Extended(a: Task, b: Task) {
    && a.status == Running && b.status == Running && a.lease.Some? && b.lease.Some? && a.attempt == b.attempt
    && a.lease.value.worker == b.lease.value.worker && a.lease.value.expires < b.lease.value.expires
  }

  /** A heartbeat is only accepted while the lease is live and always moves its end. */
  lemma HeartbeatsExtend(log: seq<Envelope>, clock: seq<nat>, i: nat)
    requires Happened(log, clock) && i < |log| && log[i].event.Heartbeat?
    ensures var id := log[i].event.id;
            && id in At(log, i) && id in At(log, i + 1)
            && Extended(At(log, i)[id], At(log, i + 1)[id]) && Live(At(log, i)[id], clock[i])
  {
    RecordStep(log, clock, i);
    TaskStep(log, clock, i, log[i].event.id);
  }

  /** A lease granted now is live, except at the very last instant a clock can show, when it
      has already run out. */
  lemma ClaimsAreLive(log: seq<Envelope>, clock: seq<nat>, i: nat)
    requires Happened(log, clock) && i < |log| && log[i].event.Claimed? && clock[i] <= MAX_TIME
    ensures var id := log[i].event.id;
            id in At(log, i + 1) && (Live(At(log, i + 1)[id], clock[i]) <==> clock[i] < MAX_TIME)
  {
    RecordStep(log, clock, i);
  }

  // ---- The idempotency index ----

  /** The index leads from every stored key to its task, and nowhere else. */
  predicate Indexed(tasks: Tasks, index: map<string, TaskId>) {
    && (forall key :: key in index ==> index[key] in tasks && tasks[index[key]].key == key)
    && (forall id :: id in tasks ==> tasks[id].key in index && index[tasks[id].key] == id)
  }

  /** There is only one such index. */
  lemma IndexIsUnique(tasks: Tasks, a: map<string, TaskId>, b: map<string, TaskId>)
    requires Indexed(tasks, a) && Indexed(tasks, b)
    ensures a == b
  {
    forall key ensures key in a <==> key in b {
      if key in a {
        assert tasks[a[key]].key == key;
      }
      if key in b {
        assert tasks[b[key]].key == key;
      }
    }
    forall key | key in a ensures a[key] == b[key] {
      assert tasks[a[key]].key == key;
    }
  }

  lemma SubmittedIndex(tasks: Tasks, index: map<string, TaskId>, task: Task)
    requires Indexed(tasks, index) && task.id !in tasks && KeyFree(tasks, task.key)
    ensures Indexed(tasks[task.id := task], index[task.key := task.id])
  {
  }

  lemma ChangedIndex(tasks: Tasks, index: map<string, TaskId>, id: TaskId, task: Task)
    requires Indexed(tasks, index) && id in tasks && task.key == tasks[id].key
    ensures Indexed(tasks[id := task], index)
  {
  }

  lemma MissingKeyIsFree(tasks: Tasks, index: map<string, TaskId>, key: string)
    requires Indexed(tasks, index)
    ensures key !in index <==> KeyFree(tasks, key)
  {
  }
}
