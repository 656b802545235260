/** At most one end per connection: where it follows from the bind check, and exactly when it holds without it. */
module EndOnce {
  import opened Wire
  import opened Records
  import opened Meaning
  import opened Framing
  import opened Connection
  import Delivery
  import Encoder
  import Envelope
  import Session

  predicate OneEndLast(sent: seq<Record>) {
    forall i :: 0 <= i < |sent| && sent[i].kind.Ended? ==> i == |sent| - 1
  }

  /** Over every schedule of a bound receiver: one end at most, nothing after it, no refused copy, no failed counter. */
  lemma {:induction false} BoundEndsOnce(setup: Setup, events: seq<Event>)
    requires Delivery.Bound(setup)
    ensures var task := Run(setup, events);
      && OneEndLast(task.sent)
      && (task.terminalQueued <==> exists i :: 0 <= i < |task.sent| && task.sent[i].kind.Ended?)
      && (task.terminalQueued ==> task.pc.Done?)
      && (task.pendingRecord ==> !task.terminalQueued)
      && (task.pc.Copying? ==> |task.pc.bytes| <= setup.budgetCapacity)
      && (task.pc.BeforeFeed? ==>
            task.consumed + Advance(AnyLength, setup.payloadCapacity, task.decoder, task.input).consumed <= task.read)
      && task.wireQueued <= task.read == |task.observed| <= U64_MAX
  {
    hide Next, Delivery.Tells;
    Delivery.RunInv(setup, events);
  }

  /** A payload that the decoder and session admit but the budget can never hold. */
  predicate Refusable(setup: Setup, rate: SampleRate, length: nat) {
    && setup.profile.Accepts(rate)
    && length % 2 == 0
    && setup.budgetCapacity < length <= setup.payloadCapacity
    && length <= MAX_BODY_BYTES
  }

  /** The shortest audio payload that the budget can never hold. */
  function ShortestRefused(setup: Setup): nat {
    2 * (setup.budgetCapacity / 2 + 1)
  }

  /** The scratch holds a UUID, some rate is accepted, and the shortest payload beyond the budget fits a frame. */
  predicate Overrunnable(setup: Setup) {
    && setup.payloadCapacity >= 16
    && (exists rate: SampleRate :: setup.profile.Accepts(rate))
    && ShortestRefused(setup) <= setup.payloadCapacity && ShortestRefused(setup) <= MAX_BODY_BYTES
  }

  lemma OverrunByRefusable(setup: Setup, rate: SampleRate, length: nat)
    requires setup.payloadCapacity >= 16 && Refusable(setup, rate, length)
    ensures Overrunnable(setup)
  {
  }

  /** The part of the invariant that needs no budget at all. Without room for a UUID no identity is ever set. */
  predicate EndShape(setup: Setup, task: Task) {
    && OneEndLast(task.sent)
    && ((exists i :: 0 <= i < |task.sent| && task.sent[i].kind.Ended?) ==> task.pc.Done?)
    && (setup.payloadCapacity < 16 ==> !task.session.Active?)
    && match task.pc
       case Sending(record, ToObserved) => record.kind.Ended? ==> task.session.SessionEnded?
       case Sending(record, ToStop) => true
       case Sending(record, _) => !record.kind.Ended?
       case BeforeTyped(raw) => |raw.payload| <= setup.payloadCapacity && |raw.payload| <= MAX_BODY_BYTES
       case Copying(bytes, ForAudio(_, rate)) =>
         && setup.payloadCapacity >= 16
         && |bytes| <= setup.payloadCapacity && |bytes| <= MAX_BODY_BYTES && |bytes| % 2 == 0
         && setup.profile.Accepts(rate)
       case Copying(_, ForPeerError(_)) => task.session.SessionEnded?
       case _ => true
  }

  lemma FrameWidth(rule: HeaderRule, capacity: nat, bytes: seq<byte>)
    requires ParseFront(rule, capacity, bytes).Complete?
    ensures |ParseFront(rule, capacity, bytes).frame.payload| <= capacity
    ensures |ParseFront(rule, capacity, bytes).frame.payload| <= MAX_BODY_BYTES
  {
    assert BodyLength(bytes) <= MAX_BODY_BYTES;
  }

  lemma EndShapeSend(setup: Setup, task: Task)
    requires task.pc.Sending? && EndShape(setup, task)
    ensures EndShape(setup, Send(task))
  {
    var next, record := Send(task), task.pc.record;
    assert next.sent == task.sent || next.sent == task.sent + [record];
    if next.sent == task.sent + [record] {
      assert forall i :: 0 <= i < |task.sent| ==> next.sent[i] == task.sent[i];
      if record.kind.Ended? {
        assert next.sent[|task.sent|] == record;
      }
    }
  }

  lemma EndShapeFeed(setup: Setup, task: Task)
    requires task.pc.BeforeFeed? && EndShape(setup, task)
    requires Settled(AnyLength, setup.payloadCapacity, task.decoder)
    ensures EndShape(setup, FeedStep(setup, task))
  {
    hide ParseFront;
    var fed := Advance(AnyLength, setup.payloadCapacity, task.decoder, task.input);
    if fed.outcome.Frame? {
      FrameWidth(AnyLength, setup.payloadCapacity, task.decoder.partial + task.input);
    }
  }

  lemma EndShapeTyped(setup: Setup, task: Task)
    requires task.pc.BeforeTyped? && EndShape(setup, task)
    ensures EndShape(setup, TypedStep(setup, task, task.pc.raw))
  {
    hide Envelope.Typed;
    var raw := task.pc.raw;
    if Envelope.Typed(raw).Ok? {
      TypedSizes(raw);
    }
  }

  lemma EndShapeCopy(setup: Setup, task: Task)
    requires task.pc.Copying? && EndShape(setup, task)
    requires !Overrunnable(setup)
    ensures EndShape(setup, CopyDone(setup, task))
  {
    match task.pc.goal
    case ForAudio(_, rate) =>
      if Refusable(setup, rate, |task.pc.bytes|) { OverrunByRefusable(setup, rate, |task.pc.bytes|); }
    case _ =>
  }

  lemma EndShapeNext(setup: Setup, task: Task, event: Event)
    requires Settled(AnyLength, setup.payloadCapacity, task.decoder) && EndShape(setup, task)
    requires !Overrunnable(setup)
    ensures EndShape(setup, Next(setup, task, event))
  {
    if event.Granted? {
      hide EndShape, Send, FeedStep, TypedStep, CopyDone;
      match task.pc
      case Sending(_, _) => EndShapeSend(setup, task);
      case Copying(_, _) => EndShapeCopy(setup, task);
      case BeforeFeed => EndShapeFeed(setup, task);
      case BeforeTyped(_) => EndShapeTyped(setup, task);
      case _ =>
    }
  }

  lemma {:induction false} EndShapeRun(setup: Setup, events: seq<Event>)
    requires !Overrunnable(setup)
    ensures EndShape(setup, Run(setup, events))
    decreases |events|
  {
    if events != [] {
      hide EndShape, Next;
      EndShapeRun(setup, events[..|events| - 1]);
      EndShapeNext(setup, Run(setup, events[..|events| - 1]), events[|events| - 1]);
    }
  }

  lemma TypedSizes(raw: RawEnvelope)
    requires Envelope.Typed(raw).Ok?
    ensures var message := Envelope.Typed(raw).value;
      && (message.Audio? ==> message.payload == raw.payload && |raw.payload| % 2 == 0)
      && (message.Identity? ==> |raw.payload| == 16)
  {
  }

  /** A task between frames, with `partial` undecoded and nothing in hand. */
  predicate Idle(setup: Setup, task: Task, session: Session.SessionState, partial: seq<byte>, count: nat) {
    && task.pc == AwaitingRead && task.decoder == Live(partial) && task.session == session && task.input == []
    && task.read <= count && task.consumed <= count && task.recordsQueued <= 2 * count + 2
    && !task.terminalQueued
  }

  /** One byte arrives, is copied, handed over and fed. */
  lemma OneByte(setup: Setup, events: seq<Event>, session: Session.SessionState, partial: seq<byte>, b: byte,
                count: nat)
    returns (events': seq<Event>)
    requires setup.budgetCapacity > 0 && !session.SessionEnded? && count < 0x1_0000_0000
    requires Idle(setup, Run(setup, events), session, partial, count)
    requires !ParseFront(AnyLength, setup.payloadCapacity, partial + [b]).Refused?
    ensures ParseFront(AnyLength, setup.payloadCapacity, partial + [b]).Incomplete? ==>
      Idle(setup, Run(setup, events'), session, partial + [b], count + 1)
    ensures ParseFront(AnyLength, setup.payloadCapacity, partial + [b]).Complete? ==>
      Idle(setup, Run(setup, events').(pc := AwaitingRead), session, [], count + 1)
      && Run(setup, events').pc == BeforeTyped(ParseFront(AnyLength, setup.payloadCapacity, partial + [b]).frame)
  {
    hide ParseFront, TypedStep, EndOfStream, Run;
    RunMore(setup, events, ReadChunk([b]));
    var e1 := events + [ReadChunk([b])];
    RunMore(setup, e1, Granted);
    var e2 := e1 + [Granted];
    RunMore(setup, e2, Granted);
    var e3 := e2 + [Granted];
    RunMore(setup, e3, Granted);
    events' := e3 + [Granted];
    assert Run(setup, e3).pc == BeforeFeed;
    if ParseFront(AnyLength, setup.payloadCapacity, partial + [b]).Complete? {
      FrontBeyond(AnyLength, setup.payloadCapacity, partial, [b]);
    }
  }

  /** A frame arrives byte by byte, all but its last byte leaving the task between frames. */
  lemma {:induction false} WholeFrame(setup: Setup, events: seq<Event>, session: Session.SessionState, raw: RawEnvelope,
                                      at: nat, count: nat)
    returns (events': seq<Event>)
    requires setup.budgetCapacity > 0 && !session.SessionEnded?
    requires |raw.payload| <= setup.payloadCapacity && |raw.payload| <= MAX_BODY_BYTES
    requires at < |Encoder.Frame(raw)| && count + |Encoder.Frame(raw)| < 0x1_0000_0000
    requires Idle(setup, Run(setup, events), session, Encoder.Frame(raw)[..at], count + at)
    ensures Run(setup, events').pc == BeforeTyped(raw)
    ensures Idle(setup, Run(setup, events').(pc := AwaitingRead), session, [], count + |Encoder.Frame(raw)|)
    decreases |Encoder.Frame(raw)| - at
  {
    var frame := Encoder.Frame(raw);
    FramePrefix(setup, raw, at + 1);
    assert frame[..at] + [frame[at]] == frame[..at + 1];
    events' := OneByte(setup, events, session, frame[..at], frame[at], count + at);
    if at + 1 < |frame| {
      events' := WholeFrame(setup, events', session, raw, at + 1, count);
    }
  }

  lemma FramePrefix(setup: Setup, raw: RawEnvelope, at: nat)
    requires |raw.payload| <= setup.payloadCapacity && |raw.payload| <= MAX_BODY_BYTES
    requires at <= |Encoder.Frame(raw)|
    ensures var front := ParseFront(AnyLength, setup.payloadCapacity, Encoder.Frame(raw)[..at]);
      if at < |Encoder.Frame(raw)| then front == Incomplete else front == Complete(raw)
  {
    var bytes := Encoder.Frame(raw)[..at];
    if at >= HEADER_BYTES {
      assert BodyLength(bytes) == |raw.payload|;
      if at == |Encoder.Frame(raw)| {
        assert bytes[HEADER_BYTES..] == raw.payload;
      }
    }
  }

  /** A schedule that establishes an identity. */
  lemma Establish(setup: Setup, uuid: Uuid) returns (events: seq<Event>)
    requires setup.payloadCapacity >= 16 && setup.budgetCapacity > 0
    ensures Idle(setup, Run(setup, events), Session.Active(uuid), [], 20)
  {
    hide ParseFront, Encoder.Frame, Run;
    var identity := RawEnvelope(0x01, uuid);
    events := Admit(setup);
    FrameStart(identity);
    events := WholeFrame(setup, events, Session.AwaitingUuid, identity, 0, 0);
    Identified(setup, Run(setup, events), uuid);
    events := TwoGrants(setup, events);
  }

  lemma Admit(setup: Setup) returns (events: seq<Event>)
    ensures Idle(setup, Run(setup, events), Session.AwaitingUuid, [], 0)
  {
    RunMore(setup, [], Granted);
    events := [] + [Granted];
  }

  lemma Identified(setup: Setup, task: Task, uuid: Uuid)
    requires task.pc == BeforeTyped(RawEnvelope(0x01, uuid))
    requires Settled(AnyLength, setup.payloadCapacity, task.decoder)
    requires Idle(setup, task.(pc := AwaitingRead), Session.AwaitingUuid, [], 19)
    ensures Idle(setup, Next(setup, Next(setup, task, Granted), Granted), Session.Active(uuid), [], 20)
  {
    Encoder.TypedInvertsCarrier(Identity(uuid));
    hide Envelope.Typed, ParseFront;
  }

  lemma FrameStart(raw: RawEnvelope)
    requires |raw.payload| <= MAX_BODY_BYTES
    ensures |Encoder.Frame(raw)| == HEADER_BYTES + |raw.payload| && Encoder.Frame(raw)[..0] == []
  {
  }

  /** Without the bind check, an admitted payload that never fits yields a second end. */
  lemma RefusedAudioEndsTwice(setup: Setup, rate: SampleRate, length: nat) returns (events: seq<Event>)
    requires setup.payloadCapacity >= 16 && setup.budgetCapacity > 0
    requires Refusable(setup, rate, length)
    ensures !OneEndLast(Run(setup, events).sent)
  {
    hide ParseFront, Encoder.Frame, Run;
    var uuid: Uuid := seq(16, _ => 0);
    var audio := RawEnvelope(Encoder.RateType(rate), seq(length, _ => 0));
    Encoder.TypedInvertsCarrier(Audio(rate, audio.payload));
    events := Establish(setup, uuid);
    FrameStart(audio);
    events := WholeFrame(setup, events, Session.Active(uuid), audio, 0, 20);
    EndsTwice(setup, Run(setup, events), uuid, rate, length);
    events := TwoGrants(setup, events);
    RunMore(setup, events, Granted);
    events := events + [Granted];
    RunMore(setup, events, ReadEof);
    RunMore(setup, events + [ReadEof], Granted);
    events := events + [ReadEof] + [Granted];
  }

  lemma EndsTwice(setup: Setup, task: Task, uuid: Uuid, rate: SampleRate, length: nat)
    requires task.pc.BeforeTyped? && Envelope.Typed(task.pc.raw) == Ok(Audio(rate, task.pc.raw.payload))
    requires Settled(AnyLength, setup.payloadCapacity, task.decoder)
    requires |task.pc.raw.payload| == length && Refusable(setup, rate, length)
    requires Idle(setup, task.(pc := AwaitingRead), Session.Active(uuid), [], 0x1_0000_0000)
    ensures var refused := Next(setup, Next(setup, Next(setup, task, Granted), Granted), Granted);
      !OneEndLast(Next(setup, Next(setup, refused, ReadEof), Granted).sent)
  {
    hide Envelope.Typed, ParseFront;
    var refused := Next(setup, Next(setup, Next(setup, task, Granted), Granted), Granted);
    assert refused.pc.AwaitingRead? && refused.decoder == Live([]);
    var last := Next(setup, Next(setup, refused, ReadEof), Granted);
    assert last.sent[|task.sent|] == refused.sent[|task.sent|];
    assert last.sent[|task.sent|].kind.Ended? && |last.sent| == |task.sent| + 2;
  }

  lemma TwoGrants(setup: Setup, events: seq<Event>) returns (events': seq<Event>)
    ensures Run(setup, events') == Next(setup, Next(setup, Run(setup, events), Granted), Granted)
  {
    RunMore(setup, events, Granted);
    RunMore(setup, events + [Granted], Granted);
    events' := events + [Granted] + [Granted];
  }

  /**
   * Exactly when every schedule ends at most once: when no payload of an identified peer is admitted but beyond
   * the budget.
   */
  lemma EndsOnceIff(setup: Setup)
    requires setup.budgetCapacity > 0
    ensures (forall events :: OneEndLast(Run(setup, events).sent)) <==> !Overrunnable(setup)
  {
    if Overrunnable(setup) {
      var rate: SampleRate :| setup.profile.Accepts(rate);
      var events := RefusedAudioEndsTwice(setup, rate, ShortestRefused(setup));
    } else {
      forall events
        ensures OneEndLast(Run(setup, events).sent)
      {
        EndShapeRun(setup, events);
      }
    }
  }
}
