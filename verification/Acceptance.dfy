/** Task acceptance: bounded attempts, each verified against fixed criteria. */
module Acceptance {
  import opened Wrappers
  import opened Ids
  import opened Protocol

  datatype Artifact = Artifact(id: string, content: string)
  datatype Criterion = Criterion(id: string, artifactId: string, expected: string)
  datatype Spec = Spec(objective: string, criteria: seq<Criterion>, maxAttempts: nat)

  /** `found` is how many snapshots of the artifact there were. */
  datatype Check = Check(criterionId: string, artifactId: string, passed: bool, found: nat)

  datatype Status = Ready | Running | NeedsRepair | Succeeded | BudgetExhausted | Blocked {
    predicate Terminal() {
      Succeeded? || BudgetExhausted? || Blocked?
    }
  }

  datatype Evidence =
      Evidence(attempt: nat, turn: string, artifacts: seq<Artifact>, checks: seq<Check>, receipts: seq<ToolReceipt>)

  datatype Work = Criterion(id: string) | Repair(check: Check) | Reconcile | Because(reason: string)

  datatype State = State(
    spec: Spec, status: Status, attempts: nat, evidence: seq<Evidence>, remaining: seq<Work>, active: Option<string>)

  datatype TaskEvent =
    | Created(spec: Spec)
    | AttemptStarted(turn: string)
    | AttemptChecked(artifacts: seq<Artifact>, receipts: seq<ToolReceipt>)
    | BlockedBy(reason: string)

  // ---- The gate ----

  function Snapshots(artifacts: seq<Artifact>, id: string): seq<Artifact> {
    if artifacts == [] then [] else
      var last := artifacts[|artifacts| - 1];
      Snapshots(artifacts[..|artifacts| - 1], id) + if last.id == id then [last] else []
  }

  function CheckOne(c: Criterion, artifacts: seq<Artifact>): Check {
    var matches := Snapshots(artifacts, c.artifactId);
    Check(c.id, c.artifactId, |matches| == 1 && matches[0].content == c.expected, |matches|)
  }

  function CheckAll(criteria: seq<Criterion>, artifacts: seq<Artifact>): (checks: seq<Check>)
    ensures |checks| == |criteria|
  {
    if criteria == [] then [] else
      CheckAll(criteria[..|criteria| - 1], artifacts) + [CheckOne(criteria[|criteria| - 1], artifacts)]
  }

  predicate AllPassed(checks: seq<Check>) {
    forall i :: 0 <= i < |checks| ==> checks[i].passed
  }

  predicate OutcomeUnknown(receipts: seq<ToolReceipt>) {
    exists i :: 0 <= i < |receipts| && receipts[i].status == ReceiptStatus.Unknown
  }

  function Repairs(checks: seq<Check>): seq<Work> {
    if checks == [] then [] else
      Repairs(checks[..|checks| - 1]) + if checks[|checks| - 1].passed then [] else [Repair(checks[|checks| - 1])]
  }

  // ---- The state machine ----

  predicate ValidCriteria(criteria: seq<Criterion>) {
    && (forall i :: 0 <= i < |criteria| ==> !Blank(criteria[i].id) && !Blank(criteria[i].artifactId))
    && (forall i, j :: 0 <= i < j < |criteria| ==> criteria[i].id != criteria[j].id)
  }

  predicate ValidSpec(spec: Spec) {
    !Blank(spec.objective) && spec.criteria != [] && spec.maxAttempts > 0 && ValidCriteria(spec.criteria)
  }

  function Named(criteria: seq<Criterion>): seq<Work> {
    seq(|criteria|, i requires 0 <= i < |criteria| => Work.Criterion(criteria[i].id))
  }

  function Initial(spec: Spec): State {
    State(spec, Ready, 0, [], Named(spec.criteria), None)
  }

  predicate TurnUsed(evidence: seq<Evidence>, turn: string) {
    exists i :: 0 <= i < |evidence| && evidence[i].turn == turn
  }

  function Verdict(s: State, checks: seq<Check>, receipts: seq<ToolReceipt>): Status {
    if OutcomeUnknown(receipts) then Blocked
    else if AllPassed(checks) then Status.Succeeded
    else if s.attempts == s.spec.maxAttempts then BudgetExhausted
    else NeedsRepair
  }

  /** One event on a state; None for an event the state does not allow. */
  function Apply(s: State, e: TaskEvent): Option<State> {
    match e
    case Created(_) => None
    case AttemptStarted(turn) =>
      if !(s.status == Ready || s.status == NeedsRepair) || s.attempts >= s.spec.maxAttempts
         || Blank(turn) || TurnUsed(s.evidence, turn) then None
      else Some(s.(attempts := s.attempts + 1, active := Some(turn), status := Running))
    case AttemptChecked(artifacts, receipts) =>
      if s.status != Running || s.active.None? then None else
      var checks := CheckAll(s.spec.criteria, artifacts);
      var work := Repairs(checks) + if OutcomeUnknown(receipts) then [Reconcile] else [];
      Some(s.(remaining := work, status := Verdict(s, checks, receipts), active := None,
              evidence := s.evidence + [Evidence(s.attempts, s.active.value, artifacts, checks, receipts)]))
    case BlockedBy(reason) =>
      if s.status.Terminal() || Blank(reason) then None
      else Some(s.(status := Blocked, remaining := s.remaining + [Because(reason)]))
  }

  /** The state a journal of events leads to. */
  function Replay(events: seq<TaskEvent>): Option<State> {
    if events == [] then None else
    var init, last := events[..|events| - 1], events[|events| - 1];
    if init == [] then (if last.Created? && ValidSpec(last.spec) then Some(Initial(last.spec)) else None)
    else if Replay(init).None? then None
    else Apply(Replay(init).value, last)
  }

  lemma ReplayAppend(events: seq<TaskEvent>, e: TaskEvent)
    requires Replay(events).Some?
    ensures Replay(events + [e]) == Apply(Replay(events).value, e)
  {
    assert (events + [e])[..|events + [e]| - 1] == events;
  }

  // ---- What every journal keeps ----

  /** What is left to happen at most: falls with every event. */
  function Rank(s: State): nat {
    if s.status.Terminal() || s.attempts > s.spec.maxAttempts then 0
    else 2 * (s.spec.maxAttempts - s.attempts) + if s.status == Running then 1 else 0
  }

  predicate Passes(e: Evidence) {
    AllPassed(e.checks) && !OutcomeUnknown(e.receipts)
  }

  predicate Fails(e: Evidence) {
    !AllPassed(e.checks) && !OutcomeUnknown(e.receipts)
  }

  /** What a status says about the evidence, both ways round. */
  predicate StatusFits(s: State) {
    var n := |s.evidence|;
    && (s.status == Status.Succeeded <==> n > 0 && Passes(s.evidence[n - 1]))
    && (s.status == BudgetExhausted <==> 0 < n == s.spec.maxAttempts && Fails(s.evidence[n - 1]))
    && (n > 0 && OutcomeUnknown(s.evidence[n - 1].receipts) ==> s.status == Blocked)
    && (s.status == Running ==> s.active.Some?)
    && (s.status == Ready <==> s.attempts == 0 && s.status != Blocked)
    && (s.status == NeedsRepair ==> s.attempts < s.spec.maxAttempts)
  }

  predicate EvidenceFits(s: State) {
    && |s.evidence| <= s.attempts <= s.spec.maxAttempts
    && s.attempts == |s.evidence| + (if s.active.Some? then 1 else 0)
    && (forall i :: 0 <= i < |s.evidence| ==> s.evidence[i].attempt == i + 1)
    && (forall i, j :: 0 <= i < j < |s.evidence| ==> s.evidence[i].turn != s.evidence[j].turn)
    && (s.active.Some? ==> !TurnUsed(s.evidence, s.active.value))
    && (s.active.Some? ==> s.status == Running || s.status == Blocked)
    && (forall i :: 0 <= i < |s.evidence| ==>
         s.evidence[i].checks == CheckAll(s.spec.criteria, s.evidence[i].artifacts))
  }

  predicate Kept(s: State) {
    ValidSpec(s.spec) && EvidenceFits(s) && StatusFits(s)
  }

  lemma InitialKept(spec: Spec)
    requires ValidSpec(spec)
    ensures Kept(Initial(spec))
  {
  }

  lemma StartedKept(s: State, turn: string)
    requires Kept(s) && Apply(s, AttemptStarted(turn)).Some?
    ensures Kept(Apply(s, AttemptStarted(turn)).value)
    ensures Rank(Apply(s, AttemptStarted(turn)).value) < Rank(s)
  {
  }

  lemma CheckedKept(s: State, artifacts: seq<Artifact>, receipts: seq<ToolReceipt>)
    requires Kept(s) && Apply(s, AttemptChecked(artifacts, receipts)).Some?
    ensures Kept(Apply(s, AttemptChecked(artifacts, receipts)).value)
    ensures Rank(Apply(s, AttemptChecked(artifacts, receipts)).value) < Rank(s)
  {
    var t := Apply(s, AttemptChecked(artifacts, receipts)).value;
    var n := |s.evidence|;
    assert t.evidence[n].turn == s.active.value;
    forall i | 0 <= i < n ensures t.evidence[i].turn != s.active.value {
      assert t.evidence[i] == s.evidence[i];
    }
  }

  lemma BlockedKept(s: State, reason: string)
    requires Kept(s) && Apply(s, BlockedBy(reason)).Some?
    ensures Kept(Apply(s, BlockedBy(reason)).value)
    ensures Rank(Apply(s, BlockedBy(reason)).value) < Rank(s)
  {
  }

  /** Every event an existing task allows keeps all this and comes closer to the end. */
  lemma ApplyKeeps(s: State, e: TaskEvent)
    requires Kept(s) && Apply(s, e).Some?
    ensures Kept(Apply(s, e).value) && Rank(Apply(s, e).value) < Rank(s)
    ensures Apply(s, e).value.spec == s.spec
  {
    match e {
      case AttemptStarted(turn) => StartedKept(s, turn);
      case AttemptChecked(artifacts, receipts) => CheckedKept(s, artifacts, receipts);
      case BlockedBy(reason) => BlockedKept(s, reason);
    }
  }

  /** In every journal: evidence has distinct turns and is what the gate says of its own
      artifacts; a task has succeeded exactly if its last evidence passes every check and no
      outcome is unknown, and has exhausted its budget exactly if the last allowed attempt
      was verified and failed; and there is one creation and at most two records for each
      allowed attempt. */
  lemma {:induction false} JournalsAreBounded(events: seq<TaskEvent>)
    requires Replay(events).Some?
    ensures Kept(Replay(events).value)
    ensures |events| + Rank(Replay(events).value) <= 1 + 2 * Replay(events).value.spec.maxAttempts
  {
    var init, last := events[..|events| - 1], events[|events| - 1];
    if init == [] {
      InitialKept(last.spec);
    } else {
      JournalsAreBounded(init);
      ApplyKeeps(Replay(init).value, last);
    }
  }

  /** A task that has ended stays as it is. */
  lemma EndedAllowsNothing(s: State, e: TaskEvent)
    requires Kept(s) && s.status.Terminal()
    ensures Apply(s, e) == None
  {
  }

  predicate OnlySnapshot(artifacts: seq<Artifact>, id: string, k: int) {
    0 <= k < |artifacts| && artifacts[k].id == id
    && forall j :: 0 <= j < |artifacts| && artifacts[j].id == id ==> j == k
  }

  /** There is one snapshot of the artifact, with exactly the expected content. */
  predicate Meets(artifacts: seq<Artifact>, c: Criterion) {
    exists k :: 0 <= k < |artifacts| && OnlySnapshot(artifacts, c.artifactId, k) && artifacts[k].content == c.expected
  }

  lemma {:induction false} NoSnapshots(artifacts: seq<Artifact>, id: string)
    ensures Snapshots(artifacts, id) == [] <==> forall j :: 0 <= j < |artifacts| ==> artifacts[j].id != id
  {
    if artifacts != [] {
      var n := |artifacts| - 1;
      NoSnapshots(artifacts[..n], id);
      assert forall j :: 0 <= j < n ==> artifacts[j] == artifacts[..n][j];
    }
  }

  lemma {:induction false} OneSnapshot(artifacts: seq<Artifact>, id: string, k: int)
    requires OnlySnapshot(artifacts, id, k)
    ensures Snapshots(artifacts, id) == [artifacts[k]]
  {
    var init := artifacts[..|artifacts| - 1];
    if k == |artifacts| - 1 {
      NoSnapshots(init, id);
    } else {
      assert init[k] == artifacts[k];
      OneSnapshot(init, id, k);
    }
  }

  lemma {:induction false} SingleIsOnly(artifacts: seq<Artifact>, id: string) returns (k: int)
    requires |Snapshots(artifacts, id)| == 1
    ensures OnlySnapshot(artifacts, id, k)
  {
    var n := |artifacts| - 1;
    if artifacts[n].id == id {
      NoSnapshots(artifacts[..n], id);
      assert forall j :: 0 <= j < n ==> artifacts[j] == artifacts[..n][j];
      k := n;
    } else {
      k := SingleIsOnly(artifacts[..n], id);
      assert artifacts[..n][k] == artifacts[k];
      assert forall j :: 0 <= j < n ==> artifacts[j] == artifacts[..n][j];
    }
  }

  lemma CheckIsExact(c: Criterion, artifacts: seq<Artifact>)
    ensures CheckOne(c, artifacts).passed <==> Meets(artifacts, c)
  {
    if CheckOne(c, artifacts).passed {
      var k := SingleIsOnly(artifacts, c.artifactId);
      OneSnapshot(artifacts, c.artifactId, k);
    } else if Meets(artifacts, c) {
      var k :| 0 <= k < |artifacts| && OnlySnapshot(artifacts, c.artifactId, k) && artifacts[k].content == c.expected;
      OneSnapshot(artifacts, c.artifactId, k);
    }
  }

  /** The gate checks every criterion, in order, and passes exactly those that are met. */
  lemma {:induction false} GateIsExact(criteria: seq<Criterion>, artifacts: seq<Artifact>, i: nat)
    requires i < |criteria|
    ensures CheckAll(criteria, artifacts)[i].criterionId == criteria[i].id
    ensures CheckAll(criteria, artifacts)[i].passed <==> Meets(artifacts, criteria[i])
    decreases |criteria|
  {
    if i == |criteria| - 1 {
      CheckIsExact(criteria[i], artifacts);
    } else {
      GateIsExact(criteria[..|criteria| - 1], artifacts, i);
    }
  }
}

/** The journal object and its file. */
module AcceptanceJournal {
  import opened Wrappers
  import opened Ids
  import opened Acceptance

  /** One line of a journal: a record, or something that is none. */
  datatype Line = Entry(version: nat, sequence: nat, event: TaskEvent) | Unreadable

  /** The lines of a file, and whether bytes follow the last line feed. */
  datatype Image = Image(lines: seq<Line>, torn: bool)

  function Entries(events: seq<TaskEvent>): seq<Line> {
    seq(|events|, i requires 0 <= i < |events| => Entry(1, i, events[i]))
  }

  lemma EntriesAppend(events: seq<TaskEvent>, e: TaskEvent)
    ensures Entries(events + [e]) == Entries(events) + [Entry(1, |events|, e)]
  {
  }

  datatype JournalError = Unterminated | BadLine | OutOfOrder | NotCreated | Invalid | Io

  /** What reading a file finds: its events if it is terminated, every line is a record of
      this version numbered by its position, and the events replay. */
  predicate Readable(file: Image, events: seq<TaskEvent>) {
    !file.torn && events != [] && file.lines == Entries(events) && Replay(events).Some?
  }

  class TaskJournal {
    var file: Image
    var state: State
    var sequence: nat
    var writeFailed: bool
    ghost var events: seq<TaskEvent>
    ghost var attempted: Option<TaskEvent>

    /** The events written before any failure are the state's; after a failure the file may
        hold the record of the event that was attempted, or a part of it. */
    ghost predicate Valid()
      reads this
    {
      && Replay(events) == Some(state) && sequence == |events|
      && (!writeFailed ==> Readable(file, events))
      && (writeFailed ==> attempted.Some? && Apply(state, attempted.value).Some?)
      && (writeFailed ==> Suspect(file, events, attempted.value))
    }

    /** Creates a journal for a task. A specification that is not valid, or a failed write,
        gives none. */
    static method Create(spec: Spec) returns (journal: Result<TaskJournal, JournalError>)
      ensures journal.Ok? ==> fresh(journal.value) && journal.value.Valid() && !journal.value.writeFailed
      ensures journal.Ok? ==> journal.value.events == [Created(spec)] && journal.value.state == Initial(spec)
      ensures !ValidSpec(spec) ==> journal == Err(Invalid)
      ensures ValidSpec(spec) ==> journal.Ok? || journal == Err(Io)
    {
      var valid := CheckSpec(spec);
      if !valid {
        return Err(Invalid);
      }
      var failed: bool := *;
      if failed {
        return Err(Io);
      }
      ghost var events := [Created(spec)];
      assert events[..0] == [];
      var file := Image([Entry(1, 0, Created(spec))], false);
      assert file.lines == Entries(events);
      var created := new TaskJournal.FromFile(file, Initial(spec), 1, events);
      journal := Ok(created);
    }

    /** Identifiers must not be blank, and criteria must differ. */
    static method CheckSpec(spec: Spec) returns (valid: bool)
      ensures valid <==> ValidSpec(spec)
    {
      if Blank(spec.objective) || spec.criteria == [] || spec.maxAttempts == 0 {
        return false;
      }
      var ids: set<string> := {};
      for n := 0 to |spec.criteria|
        invariant ids == set i | 0 <= i < n :: spec.criteria[i].id
        invariant ValidCriteria(spec.criteria[..n])
      {
        var c := spec.criteria[n];
        assert spec.criteria[..n + 1][n] == c && spec.criteria[..n + 1][..n] == spec.criteria[..n];
        if Blank(c.id) || Blank(c.artifactId) || c.id in ids {
          assert c.id in ids ==> exists i :: 0 <= i < n && spec.criteria[i].id == c.id;
          return false;
        }
        ids := ids + {c.id};
      }
      assert spec.criteria[..|spec.criteria|] == spec.criteria;
      valid := true;
    }

    constructor FromFile(file: Image, state: State, sequence: nat, ghost events: seq<TaskEvent>)
      requires Readable(file, events) && Replay(events) == Some(state) && sequence == |events|
      ensures Valid() && !writeFailed && this.file == file && this.state == state && this.events == events
    {
      this.file, this.state, this.sequence, writeFailed := file, state, sequence, false;
      this.events, attempted := events, None;
    }

    /** Replays a file; anything incomplete, unreadable or out of order is refused, and so is
        a file that cannot be read or opened for writing. */
    static method Open(file: Image) returns (journal: Result<TaskJournal, JournalError>)
      ensures journal.Ok? ==> fresh(journal.value) && journal.value.Valid() && !journal.value.writeFailed
      ensures journal.Ok? ==> journal.value.file == file && Readable(file, journal.value.events)
      ensures journal.Err? && journal.error != Io ==> !exists events :: Readable(file, events)
    {
      var unreadable: bool, unwritable: bool := *, *;
      if unreadable {
        return Err(Io);
      }
      if file.torn || file.lines == [] {
        return Err(Unterminated);
      }
      var state: Option<State> := None;
      ghost var events: seq<TaskEvent> := [];
      var n := 0;
      while n < |file.lines|
        invariant 0 <= n <= |file.lines| && |events| == n && Entries(events) == file.lines[..n]
        invariant state == Replay(events) && (n > 0 ==> state.Some?)
      {
        var line := file.lines[n];
        Distinguish(file, n, events);
        if line.Unreadable? {
          return Err(BadLine);
        }
        if line.version != 1 || line.sequence != n {
          return Err(OutOfOrder);
        }
        EntriesAppend(events, line.event);
        ExtendReplay(events, line.event);
        if state.None? {
          if !line.event.Created? || !ValidSpec(line.event.spec) {
            return Err(NotCreated);
          }
          state := Some(Initial(line.event.spec));
        } else {
          var next := Apply(state.value, line.event);
          if next.None? {
            return Err(Invalid);
          }
          state := next;
        }
        events := events + [line.event];
        assert file.lines[..n + 1] == file.lines[..n] + [line];
        n := n + 1;
      }
      assert file.lines[..n] == file.lines;
      assert Readable(file, events);
      if unwritable {
        return Err(Io);
      }
      var replayed := new TaskJournal.FromFile(file, state.value, n, events);
      journal := Ok(replayed);
    }

    /** Writes one record; a failure closes the journal, with the record written in part,
        whole, or not at all. */
    method Append(event: TaskEvent) returns (ok: bool)
      requires Valid() && Apply(state, event).Some?
      modifies this`file, this`sequence, this`writeFailed, this`attempted
      ensures old(writeFailed) ==> !ok && file == old(file) && attempted == old(attempted)
      ensures ok ==> !writeFailed && sequence == old(sequence) + 1
      ensures ok ==> file == Image(old(file).lines + [Entry(1, old(sequence), event)], false)
      ensures !ok ==>
          writeFailed && sequence == old(sequence) && attempted.Some? && Suspect(file, events, attempted.value)
      ensures !ok && !old(writeFailed) ==> attempted == Some(event)
    {
      if writeFailed {
        return false;
      }
      writeFailed, attempted := true, Some(event);
      var failed: bool, landed: bool, partly: bool := *, *, *;
      if failed && !landed {
        file := file.(torn := partly);
        return false;
      }
      file := Image(file.lines + [Entry(1, sequence, event)], false);
      EntriesAppend(events, event);
      if failed {
        assert file.lines == Entries(events + [event]);
        return false;
      }
      writeFailed := false;
      sequence := sequence + 1;
      ok := true;
    }

    /** A step of the task: the record first, then the state. A step that is not allowed or
        cannot be written leaves the state as it was. */
    method Transition(event: TaskEvent) returns (ok: bool)
      requires Valid()
      modifies this
      ensures Valid()
      ensures ok ==> Apply(old(state), event) == Some(state) && events == old(events) + [event]
      ensures !ok ==> state == old(state) && events == old(events)
      ensures Apply(old(state), event).None? ==> !ok && file == old(file) && writeFailed == old(writeFailed)
      ensures !ok && Apply(old(state), event).Some? ==> writeFailed
      ensures old(writeFailed) ==> !ok && file == old(file) && attempted == old(attempted)
      ensures !ok && Apply(old(state), event).Some? && !old(writeFailed) ==> attempted == Some(event)
    {
      var next := Apply(state, event);
      if next.None? {
        return false;
      }
      ok := Append(event);
      if ok {
        ReplayAppend(events, event);
        EntriesAppend(events, event);
        state, events := next.value, events + [event];
      }
    }
  }

  /** A file after writing an event failed: its record is not there, in part, or whole. */
  predicate Suspect(file: Image, events: seq<TaskEvent>, e: TaskEvent) {
    file.lines == Entries(events) || (!file.torn && file.lines == Entries(events + [e]))
  }

  lemma EntriesDiffer(a: seq<TaskEvent>, b: seq<TaskEvent>)
    requires Entries(a) == Entries(b)
    ensures a == b
  {
    assert |a| == |Entries(a)| == |Entries(b)| == |b|;
    forall i | 0 <= i < |a| ensures a[i] == b[i] {
      assert Entries(a)[i] == Entries(b)[i];
    }
  }

  /** Such a file opens exactly if nothing is left of a half-written record, and then the
      state is the one before the attempt or the one the attempt would have led to. */
  lemma FailedWritesReopen(file: Image, events: seq<TaskEvent>, e: TaskEvent)
    requires Replay(events).Some? && Apply(Replay(events).value, e).Some? && Suspect(file, events, e)
    ensures (exists found :: Readable(file, found)) <==> !file.torn
    ensures forall found :: Readable(file, found) ==>
              Replay(found) == Replay(events) || Replay(found) == Apply(Replay(events).value, e)
  {
    ReplayAppend(events, e);
    if !file.torn {
      assert Readable(file, if file.lines == Entries(events) then events else events + [e]);
    }
    forall found | Readable(file, found)
      ensures Replay(found) == Replay(events) || Replay(found) == Apply(Replay(events).value, e)
    {
      EntriesDiffer(found, if file.lines == Entries(events) then events else events + [e]);
    }
  }

  lemma ExtendReplay(events: seq<TaskEvent>, e: TaskEvent)
    ensures events == [] ==>
        Replay(events + [e]) == if e.Created? && ValidSpec(e.spec) then Some(Initial(e.spec)) else None
    ensures Replay(events).Some? ==> Replay(events + [e]) == Apply(Replay(events).value, e)
  {
    assert (events + [e])[..|events + [e]| - 1] == events;
  }

  lemma {:induction false} ReplayPrefix(events: seq<TaskEvent>, n: nat)
    requires Replay(events).Some? && 0 < n <= |events|
    ensures Replay(events[..n]).Some?
    decreases |events|
  {
    if n < |events| {
      ReplayPrefix(events[..|events| - 1], n);
      assert events[..|events| - 1][..n] == events[..n];
    } else {
      assert events[..n] == events;
    }
  }

  /** The next record of a longer list of events. */
  predicate Continues(all: seq<TaskEvent>, events: seq<TaskEvent>, line: Line) {
    var n := |events|;
    n < |all| && all[..n] == events && line == Entry(1, n, all[n]) && Replay(events + [all[n]]).Some?
  }

  /** If a file is readable at all, its line at any position is the next record of its events. */
  lemma Distinguish(file: Image, n: nat, events: seq<TaskEvent>)
    requires n < |file.lines| && |events| == n && Entries(events) == file.lines[..n]
    ensures forall all :: Readable(file, all) ==> Continues(all, events, file.lines[n])
  {
    forall all | Readable(file, all)
      ensures Continues(all, events, file.lines[n])
    {
      assert |Entries(all)| == |all|;
      forall i | 0 <= i < n ensures all[i] == events[i] {
        assert Entries(events)[i] == file.lines[i];
      }
      ReplayPrefix(all, n + 1);
      assert all[..n + 1] == events + [all[n]];
    }
  }
}
