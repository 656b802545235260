/** The connection task as it runs: decoder, session and counters changed in place between suspension points. */
module Receiving {
  import opened Wire
  import opened Records
  import opened Meaning
  import opened Framing
  import C = Connection
  import Envelope
  import S = Session

  class ReceiveTask {
    const setup: Setup
    const framer: Framer
    const session: S.IncomingSession
    var pc: C.Pc
    var input: seq<byte>
    var read: nat
    var consumed: nat
    var wireQueued: nat
    var recordsQueued: nat
    var pendingRecord: bool
    var terminalQueued: bool
    var counterOverflow: bool
    /** All bytes observed and all records the channel accepted. */
    ghost var observed: seq<byte>
    ghost var sent: seq<Record>

    ghost predicate Valid()
      reads this, framer, framer.header, framer.scratch, session
    {
      && framer.Ready(AnyLength)
      && framer.scratch.Length == setup.payloadCapacity
      && session.profile == setup.profile
    }

    ghost function Value(): C.Task
      requires Valid()
      reads this, framer, framer.header, framer.scratch, session
    {
      C.Task(pc, framer.Abstract(), session.state, input, read, consumed, wireQueued, recordsQueued,
             pendingRecord, terminalQueued, counterOverflow, observed, sent)
    }

    /** Admission: the scratch is allocated and the first record is in hand. */
    constructor (setup: Setup)
      ensures this.setup == setup
      ensures Valid() && Value() == C.Start(setup)
      ensures fresh(framer) && fresh(framer.header) && fresh(framer.scratch) && fresh(session)
    {
      this.setup := setup;
      var scratch := new byte[setup.payloadCapacity](_ => 0);
      framer := new Framer(scratch);
      session := new S.IncomingSession(setup.profile);
      pc := C.Sending(Record(setup.id, 0, Connected), C.ToRead);
      input, read, consumed, wireQueued, recordsQueued := [], 0, 0, 0, 0;
      pendingRecord, terminalQueued, counterOverflow := true, false, false;
      observed, sent := [], [];
    }

    /** One poll. The new state is what the step machine says, for every event. */
    method Poll(event: C.Event)
      requires Valid()
      modifies this, framer, framer.header, framer.scratch, session
      ensures Valid() && Value() == C.Next(setup, old(Value()), event)
    {
      if event.Cancelled? {
        pc := C.Done;
        return;
      }
      match pc {
        case Sending(_, _) =>
          if event.Granted? {
            SendRecord();
          } else if event.ConsumerGone? {
            pc := C.Done;
          }
        case AwaitingRead =>
          match event {
            case ReadChunk(chunk) =>
              if 0 < |chunk| <= C.READ_BYTES {
                ObserveRead(chunk);
              }
            case ReadEof => EndOfStream();
            case ReadError => Handoff(Ended(session.state.Identity(), Transport), consumed, C.ToStop);
            case _ =>
          }
        case Copying(_, _) =>
          if event.Granted? {
            FinishCopy();
          }
        case BeforeFeed =>
          if event.Granted? {
            FeedOnce();
          }
        case BeforeTyped(raw) =>
          if event.Granted? {
            Interpret(raw);
          }
        case Done =>
      }
    }

    method Handoff(kind: RecordKind, offset: nat, resume: C.Resume)
      requires Valid()
      modifies `pc, `pendingRecord
      ensures Valid() && Value() == C.Handoff(old(Value()), setup, kind, offset, resume)
    {
      pc := C.Sending(Record(setup.id, offset, kind), resume);
      pendingRecord := true;
    }

    method SendRecord()
      requires Valid() && pc.Sending?
      modifies `pc, `pendingRecord, `terminalQueued, `wireQueued, `recordsQueued, `counterOverflow, `sent
      ensures Valid() && Value() == C.Send(old(Value()))
    {
      hide Framer.Ready, Framer.Valid, Framer.Abstract, C.AfterSend;
      if recordsQueued == U64_MAX {
        pc, counterOverflow := C.Done, true;
        return;
      }
      var record, resume := pc.record, pc.resume;
      pendingRecord, terminalQueued := false, terminalQueued || record.kind.Ended?;
      wireQueued := wireQueued + if record.kind.WireBytes? then |record.kind.bytes| else 0;
      recordsQueued := recordsQueued + 1;
      sent := sent + [record];
      Resume(resume);
    }

    /** Where the task goes on after the channel accepted its record. */
    method Resume(resume: C.Resume)
      requires Valid()
      modifies `pc
      ensures Valid() && Value() == C.AfterSend(old(Value()), resume)
    {
      var decoding := if input == [] then C.AwaitingRead else C.BeforeFeed;
      match resume {
        case ToRead => pc := C.AwaitingRead;
        case ToDecode => pc := decoding;
        case ToObserved => pc := if session.state.Identity().None? then C.Done else decoding;
        case ToStop => pc := C.Done;
      }
    }

    method ObserveRead(chunk: seq<byte>)
      requires Valid()
      modifies `pc, `pendingRecord, `counterOverflow, `input, `read, `observed
      ensures Valid() && Value() == C.ObserveRead(setup, old(Value()), chunk)
    {
      if read + |chunk| > U64_MAX {
        counterOverflow := true;
        Handoff(Ended(session.state.Identity(), OffsetExhausted), consumed, C.ToStop);
        return;
      }
      pc := C.Copying(chunk, C.ForWire(read));
      input := chunk;
      read := read + |chunk|;
      observed := observed + chunk;
    }

    method EndOfStream()
      requires Valid()
      modifies `pc, `pendingRecord, session
      ensures Valid() && Value() == C.EndOfStream(setup, old(Value()))
      ensures pc.Sending? && pc.record.kind.Ended? && pc.record.offset == consumed
      ensures pc.record.kind.reason.CleanEof?
        <==> old(framer.Abstract()) == Live([]) && !old(session.state).SessionEnded?
    {
      var identity := session.state.Identity();
      var truncated := framer.FinishInput();
      if truncated.Some? {
        Handoff(Ended(identity, Truncated(truncated.value)), consumed, C.ToStop);
        return;
      }
      var verdict := session.ReceiveEndOfInput();
      Handoff(Ended(identity, if verdict.Ok? then CleanEof else Policy(verdict.error)), consumed, C.ToStop);
    }

    method FinishCopy()
      requires Valid() && pc.Copying?
      modifies `pc, `pendingRecord
      ensures Valid() && Value() == C.CopyDone(setup, old(Value()))
    {
      var bytes, goal := pc.bytes, pc.goal;
      if |bytes| > setup.budgetCapacity {
        var reason := ResourceRefused(TooLarge(|bytes|, setup.budgetCapacity));
        match goal {
          case ForWire(start) => Handoff(Ended(session.state.Identity(), reason), start, C.ToStop);
          case ForAudio(uuid, _) => Handoff(Ended(Some(uuid), reason), consumed, C.ToObserved);
          case ForPeerError(identity) => Handoff(Ended(identity, reason), consumed, C.ToObserved);
        }
      } else {
        match goal {
          case ForWire(start) => Handoff(WireBytes(bytes), start, C.ToDecode);
          case ForAudio(uuid, rate) => Handoff(AudioBytes(uuid, rate, bytes), consumed, C.ToObserved);
          case ForPeerError(identity) => Handoff(Ended(identity, PeerFailure(bytes)), consumed, C.ToObserved);
        }
      }
    }

    method FeedOnce()
      requires Valid()
      modifies `pc, `pendingRecord, `counterOverflow, `input, `consumed, framer, framer.header, framer.scratch
      ensures Valid() && Value() == C.FeedStep(setup, old(Value()))
    {
      hide Advance;
      var outcome, used := framer.Feed(input, AnyLength);
      input := input[used..];
      if consumed + used > U64_MAX {
        counterOverflow := true;
        Handoff(Ended(session.state.Identity(), OffsetExhausted), consumed, C.ToStop);
        return;
      }
      consumed := consumed + used;
      match outcome {
        case NeedInput => pc := C.AwaitingRead;
        case Error(error) => Handoff(Ended(session.state.Identity(), Decode(error)), consumed, C.ToStop);
        case Frame(raw) => pc := C.BeforeTyped(raw);
      }
    }

    method Interpret(raw: RawEnvelope)
      requires Valid()
      modifies `pc, `pendingRecord, session
      ensures Valid() && Value() == C.TypedStep(setup, old(Value()), raw)
    {
      hide Envelope.Typed, S.Receive;
      var typed := Envelope.Typed(raw);
      if typed.Err? {
        Handoff(Ended(session.state.Identity(), InvalidMessage(typed.error)), consumed, C.ToStop);
        return;
      }
      var identity := session.state.Identity();
      var verdict := session.ReceiveMessage(typed.value);
      if verdict.Err? {
        Handoff(Ended(identity, Policy(verdict.error)), consumed, C.ToStop);
        return;
      }
      match verdict.value {
        case AudioEvent(uuid, rate, payload) => pc := C.Copying(payload, C.ForAudio(uuid, rate));
        case Ended(known, EndPeerError(payload)) => pc := C.Copying(payload, C.ForPeerError(known));
        case Started(uuid) => Handoff(Started(uuid), consumed, C.ToObserved);
        case DtmfEvent(uuid, digit) => Handoff(Dtmf(uuid, digit), consumed, C.ToObserved);
        case Ended(known, EndTerminate) => Handoff(Ended(known, Terminated), consumed, C.ToObserved);
        case Ended(_, EndOfInput) => assert false;
      }
    }
  }

  /** A whole schedule run on the task itself ends where the step machine's run ends. */
  method RunSchedule(setup: Setup, events: seq<C.Event>) returns (task: ReceiveTask)
    ensures task.Valid() && task.setup == setup && task.Value() == C.Run(setup, events)
  {
    task := new ReceiveTask(setup);
    for i := 0 to |events|
      invariant task.Valid() && task.setup == setup
      invariant task.Value() == C.Run(setup, events[..i])
      invariant fresh(task) && fresh(task.framer) && fresh(task.framer.header) && fresh(task.framer.scratch)
      invariant fresh(task.session)
    {
      assert events[..i + 1][..i] == events[..i];
      task.Poll(events[i]);
    }
    assert events[..|events|] == events;
  }
}
