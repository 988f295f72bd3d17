/** The file store, byte for byte, is the store the runtime is modelled on: every append has
    one of the fates of that model, and opening the file is its reopening. What a record's
    bytes mean is a parameter. */
module StoreRefinement {
  import opened Bytes
  import opened Wrappers
  import opened Ids
  import opened Protocol
  import opened Journal
  import RecordCodec
  import JsonlStore
  import EventLogs

  type Meaning = seq<Byte> -> (ThreadId, Record)

  function EnvelopeOf(meaning: Meaning, e: RecordCodec.Event): Envelope {
    Envelope(e.sequence, meaning(e.body).0, meaning(e.body).1)
  }

  function Envelopes(meaning: Meaning, es: seq<RecordCodec.Event>): seq<Envelope> {
    if es == [] then [] else Envelopes(meaning, es[..|es| - 1]) + [EnvelopeOf(meaning, es[|es| - 1])]
  }

  lemma EnvelopesAppend(meaning: Meaning, es: seq<RecordCodec.Event>, e: RecordCodec.Event)
    ensures Envelopes(meaning, es + [e]) == Envelopes(meaning, es) + [EnvelopeOf(meaning, e)]
  {
    assert (es + [e])[..|es + [e]| - 1] == es;
  }

  ghost function Unseen(log: EventLogs.EventLog): seq<RecordCodec.Event>
    reads log, log.disk
  {
    JsonlStore.Landed(log.disk.log, log.base, log.writeFailed, log.pending)
  }

  /** The file store as the runtime's model of a store. */
  ghost function Abstract(meaning: Meaning, log: EventLogs.EventLog): Store
    reads log, log.disk
  {
    Store(Envelopes(meaning, log.events), Envelopes(meaning, Unseen(log)), log.writeFailed)
  }

  lemma {:induction false} EnvelopesEnd(meaning: Meaning, es: seq<RecordCodec.Event>)
    ensures |Envelopes(meaning, es)| == |es|
    ensures es != [] ==> Envelopes(meaning, es)[|es| - 1].sequence == es[|es| - 1].sequence
  {
    if es != [] {
      EnvelopesEnd(meaning, es[..|es| - 1]);
    }
  }

  /** Whatever numbers the file holds, repeated or falling ones too, events are handed out in
      order, so that the next number is one more than the last. */
  lemma NextAgrees(meaning: Meaning, written: seq<RecordCodec.Event>)
    ensures NextSequence(Envelopes(meaning, JsonlStore.SortBySequence(written))) == JsonlStore.NextSequence(written)
  {
    JsonlStore.SortedEndsHighest(written);
    EnvelopesEnd(meaning, JsonlStore.SortBySequence(written));
  }

  lemma AppendedIs(meaning: Meaning, log: EventLogs.EventLog, e: RecordCodec.Event)
    requires log.Sound() && e.sequence == log.nextSequence
    ensures var envelope :=
        Envelope(NextSequence(Envelopes(meaning, log.events)), meaning(e.body).0, meaning(e.body).1);
            Envelopes(meaning, log.events + [e]) == Envelopes(meaning, log.events) + [envelope]
            && Envelopes(meaning, [e]) == [envelope]
  {
    NextAgrees(meaning, log.written);
    EnvelopesAppend(meaning, log.events, e);
    assert [] + [e] == [e];
    EnvelopesAppend(meaning, [], e);
  }

  /** Every append of the file store is an append of the model. */
  method Append(log: EventLogs.EventLog, body: seq<Byte>, ghost meaning: Meaning) returns (ok: bool, ghost fate: Fate)
    requires log.Sound()
    modifies log, log.disk
    ensures log.Sound()
    ensures Abstract(meaning, log) == Write(old(Abstract(meaning, log)), meaning(body).0, meaning(body).1, fate)
    ensures ok == Acknowledged(old(Abstract(meaning, log)), fate)
  {
    AppendedIs(meaning, log, RecordCodec.Event(log.nextSequence, body));
    var stored := log.Append(body);
    ok := stored.Some?;
    fate := if ok then Stored else if Unseen(log) == [] then Lost else Landed;
  }

  /** Opening the file again is reopening the model. */
  method Reopen(log: EventLogs.EventLog, ghost meaning: Meaning)
    returns (r: Result<EventLogs.EventLog, EventLogs.OpenError>)
    requires log.Sound()
    modifies log.disk
    ensures r.Ok? ==> fresh(r.value) && r.value.Sound()
    ensures r.Ok? ==> Abstract(meaning, r.value) == Journal.Reopen(old(Abstract(meaning, log)))
    ensures r.Err? ==> r.error == EventLogs.Io
  {
    ghost var found := Unseen(log);
    EventLogs.ReopeningLosesNothing(log);
    FoundIsLast(meaning, log.events, found);
    r := EventLogs.OpenStore(log.disk);
  }

  lemma FoundIsLast(meaning: Meaning, events: seq<RecordCodec.Event>, found: seq<RecordCodec.Event>)
    requires |found| <= 1
    ensures Envelopes(meaning, events + found) == Envelopes(meaning, events) + Envelopes(meaning, found)
  {
    if found == [] {
      assert events + found == events;
    } else {
      assert found == [found[0]] == [] + [found[0]];
      EnvelopesAppend(meaning, events, found[0]);
      EnvelopesAppend(meaning, [], found[0]);
    }
  }
}
