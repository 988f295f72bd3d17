/** The event store as the runtime sees it: one sequence of envelopes shared by all
    threads, an append that either is acknowledged or fails, and a latch that keeps a
    store with a failed write closed until it is opened again. */
module Journal {
  import opened Wrappers
  import opened Ids
  import opened Protocol
  import opened Sequences

  datatype Envelope = Envelope(sequence: nat, thread: ThreadId, record: Record)

  /** `landed` is a record whose append reported failure but reached the disk:
      invisible until the store is opened again. */
  datatype Store = Store(events: seq<Envelope>, landed: seq<Envelope>, latched: bool)

  /** What becomes of one append: acknowledged; refused with nothing written; or
      failed while writing, with the record lost or complete on disk. */
  datatype Fate = Stored | NotTried | Lost | Landed

  function NextSequence(events: seq<Envelope>): nat {
    if events == [] then 0 else events[|events| - 1].sequence + 1
  }

  predicate Acknowledged(s: Store, fate: Fate) {
    !s.latched && fate == Stored
  }

  function Write(s: Store, thread: ThreadId, r: Record, fate: Fate): Store {
    var envelope := Envelope(NextSequence(s.events), thread, r);
    if s.latched then s else
    match fate
    case Stored => s.(events := s.events + [envelope])
    case NotTried => s
    case Lost => s.(latched := true)
    case Landed => s.(latched := true, landed := [envelope])
  }

  /** Opening the store again: what reached the disk is what is there. */
  function Reopen(s: Store): Store {
    Store(s.events + s.landed, [], false)
  }

  /** The records of one thread, in log order. */
  function RecordsOf(events: seq<Envelope>, thread: ThreadId): seq<Record> {
    if events == [] then [] else
      var last := events[|events| - 1];
      RecordsOf(events[..|events| - 1], thread) + if last.thread == thread then [last.record] else []
  }

  lemma RecordsAppend(events: seq<Envelope>, e: Envelope, thread: ThreadId)
    ensures RecordsOf(events + [e], thread) == RecordsOf(events, thread) + if e.thread == thread then [e.record] else []
  {
    assert (events + [e])[..|events + [e]| - 1] == events;
  }

  lemma {:induction false} RecordsConcat(a: seq<Envelope>, b: seq<Envelope>, thread: ThreadId)
    ensures RecordsOf(a + b, thread) == RecordsOf(a, thread) + RecordsOf(b, thread)
  {
    if b == [] {
      assert a + b == a;
    } else {
      RecordsConcat(a, b[..|b| - 1], thread);
      assert (a + b)[..|a + b| - 1] == a + b[..|b| - 1];
      Associative(RecordsOf(a, thread), RecordsOf(b[..|b| - 1], thread),
        if b[|b| - 1].thread == thread then [b[|b| - 1].record] else []);
    }
  }

  /** The envelopes of one thread numbered `from` or later, in log order. */
  function EnvelopesOf(events: seq<Envelope>, thread: ThreadId, from: nat): seq<Envelope> {
    if events == [] then [] else
      var last := events[|events| - 1];
      EnvelopesOf(events[..|events| - 1], thread, from)
      + if last.thread == thread && last.sequence >= from then [last] else []
  }

  lemma EnvelopesAppend(events: seq<Envelope>, e: Envelope, thread: ThreadId, from: nat)
    ensures EnvelopesOf(events + [e], thread, from) ==
            EnvelopesOf(events, thread, from) + if e.thread == thread && e.sequence >= from then [e] else []
  {
    assert (events + [e])[..|events + [e]| - 1] == events;
  }

  /** Sequence numbers rise strictly, also over a landed record. */
  predicate Numbered(events: seq<Envelope>) {
    forall i, j :: 0 <= i < j < |events| ==> events[i].sequence < events[j].sequence
  }

  /** No number is lower than one before it. */
  predicate Ordered(events: seq<Envelope>) {
    forall i, j :: 0 <= i < j < |events| ==> events[i].sequence <= events[j].sequence
  }

  /** The store object the runtime shares; which fate an append meets is up to the disk. */
  class EventStore {
    var state: Store

    constructor ()
      ensures state == Store([], [], false)
    {
      state := Store([], [], false);
    }

    method Append(thread: ThreadId, r: Record) returns (stored: Option<Envelope>, ghost fate: Fate)
      modifies this
      ensures state == Write(old(state), thread, r, fate)
      ensures stored == if Acknowledged(old(state), fate)
                        then Some(Envelope(NextSequence(old(state.events)), thread, r)) else None
    {
      var chosen: Fate := *;
      fate := chosen;
      stored := if state.latched || chosen != Stored then None
                else Some(Envelope(NextSequence(state.events), thread, r));
      state := Write(state, thread, r, chosen);
    }

    /** The thread's envelopes numbered `from` or later. */
    method LoadEnvelopes(thread: ThreadId, from: nat) returns (envelopes: seq<Envelope>)
      ensures envelopes == EnvelopesOf(state.events, thread, from)
    {
      envelopes := [];
      for i := 0 to |state.events|
        invariant envelopes == EnvelopesOf(state.events[..i], thread, from)
      {
        var e := state.events[i];
        EnvelopesAppend(state.events[..i], e, thread, from);
        assert state.events[..i + 1] == state.events[..i] + [e];
        if e.thread == thread && e.sequence >= from {
          envelopes := envelopes + [e];
        }
      }
      assert state.events[..|state.events|] == state.events;
    }

    method LoadThread(thread: ThreadId) returns (records: seq<Record>)
      ensures records == RecordsOf(state.events, thread)
    {
      records := [];
      for i := 0 to |state.events|
        invariant records == RecordsOf(state.events[..i], thread)
      {
        var e := state.events[i];
        RecordsAppend(state.events[..i], e, thread);
        assert state.events[..i + 1] == state.events[..i] + [e];
        if e.thread == thread {
          records := records + [e.record];
        }
      }
      assert state.events[..|state.events|] == state.events;
    }
  }
}
