/** Producer meets consumer: everything a connection can send satisfies what a recorder enforces. */
module Pipeline {
  import opened Wire
  import opened Records
  import opened Meaning
  import opened Framing
  import opened Connection
  import opened Delivery
  import Envelope
  import Rules = RecorderRules
  import Session

  /** The profile admits no rate but the recorder's. */
  predicate ExactRate(setup: Setup, rate: SampleRate) {
    forall other :: setup.profile.Accepts(other) ==> other == rate
  }

  function PhaseFor(identity: Option<Uuid>): Rules.Phase {
    if identity.Some? then Rules.Active(identity.value) else Rules.AwaitingUuid
  }

  /** The phase in which a recorder of the sent records has to be. */
  function PhaseOf(task: Task): Rules.Phase {
    match task.pc
    case Sending(record, _) =>
      (match record.kind
       case Connected => Rules.AwaitingConnection
       case Started(_) => Rules.AwaitingUuid
       case Ended(identity, _) => PhaseFor(identity)
       case _ => PhaseFor(task.session.Identity()))
    case Copying(_, ForPeerError(identity)) => PhaseFor(identity)
    case _ => PhaseFor(task.session.Identity())
  }

  predicate Coupled(setup: Setup, rate: SampleRate, task: Task) {
    match Rules.Replay(setup.id, rate, task.sent)
    case Err(violation) => violation == Rules.WaveSize
    case Ok(memory) =>
      && memory.wireBytes == task.wireQueued
      && memory.lastEventOffset <= task.consumed
      && (!task.pc.Done? ==> memory.phase == PhaseOf(task))
  }

  lemma SendCoupled(setup: Setup, rate: SampleRate, task: Task)
    requires Counted(task) && Shape(setup, task) && Coupled(setup, rate, task) && ExactRate(setup, rate)
    requires task.pc.Sending? && task.recordsQueued < U64_MAX
    ensures Coupled(setup, rate, Send(task))
  {
    hide Settled;
    var record, next := task.pc.record, Send(task);
    assert next.sent == task.sent + [record];
    assert next.sent[..|next.sent| - 1] == task.sent;
    var replayed := Rules.Replay(setup.id, rate, task.sent);
    if replayed.Ok? {
      ValidatesInHand(setup, rate, task, replayed.value);
    }
  }

  /** The recorder's check passes on the record in hand, or refuses it for its size alone. */
  lemma ValidatesInHand(setup: Setup, rate: SampleRate, task: Task, memory: Rules.Memory)
    requires Counted(task) && Shape(setup, task) && ExactRate(setup, rate) && task.pc.Sending?
    requires memory.wireBytes == task.wireQueued && memory.lastEventOffset <= task.consumed
    requires memory.phase == PhaseOf(task)
    requires memory.phase.AwaitingConnection? ==> memory.lastEventOffset == 0
    ensures var verdict := Rules.Validate(setup.id, rate, memory, task.pc.record);
      || verdict == Err(Rules.WaveSize)
      || (&& verdict.Ok?
          && var after := Send(task);
             task.recordsQueued < U64_MAX ==>
               && Rules.Accept(memory, task.pc.record, verdict.value).wireBytes == after.wireQueued
               && Rules.Accept(memory, task.pc.record, verdict.value).lastEventOffset <= after.consumed
               && (!after.pc.Done? ==> verdict.value == PhaseOf(after)))
  {
    hide Settled, Rules.WaveHeader;
  }

  /** What every poll that hands nothing over keeps. */
  predicate SamePhase(task: Task, next: Task) {
    && next.sent == task.sent
    && next.wireQueued == task.wireQueued
    && task.consumed <= next.consumed
    && (!next.pc.Done? ==> PhaseOf(next) == PhaseOf(task))
  }

  lemma TypedKeepsPhase(setup: Setup, task: Task)
    requires Shape(setup, task) && task.pc.BeforeTyped?
    ensures SamePhase(task, TypedStep(setup, task, task.pc.raw))
  {
    hide Settled, Envelope.Typed, Session.Receive, Session.IncomingProfile.Accepts;
    var typed := Envelope.Typed(task.pc.raw);
    if typed.Ok? {
      ReceiveEffects(setup.profile, task.session, typed.value);
    }
  }

  lemma FeedKeepsPhase(setup: Setup, task: Task)
    requires Shape(setup, task) && task.pc.BeforeFeed?
    ensures SamePhase(task, FeedStep(setup, task))
  {
    hide ParseFront;
  }

  lemma CopyKeepsPhase(setup: Setup, task: Task)
    requires Bound(setup) && Shape(setup, task) && task.pc.Copying?
    ensures SamePhase(task, CopyDone(setup, task))
  {
    hide Settled;
  }

  lemma ReadKeepsPhase(setup: Setup, task: Task, event: Event)
    requires Shape(setup, task) && task.pc.AwaitingRead?
    ensures SamePhase(task, Next(setup, task, event))
  {
    hide Settled;
  }

  lemma KeepsPhase(setup: Setup, task: Task, event: Event)
    requires Bound(setup) && Shape(setup, task) && !task.pc.Done?
    requires task.pc.Sending? && event.Granted? ==> task.recordsQueued == U64_MAX
    ensures SamePhase(task, Next(setup, task, event))
  {
    var next := Next(setup, task, event);
    if task.pc.AwaitingRead? {
      ReadKeepsPhase(setup, task, event);
    } else if event.Granted? {
      hide FeedStep, TypedStep, CopyDone, Shape;
      match task.pc
      case BeforeTyped(_) => TypedKeepsPhase(setup, task);
      case BeforeFeed => FeedKeepsPhase(setup, task);
      case Copying(_, _) => CopyKeepsPhase(setup, task);
      case _ =>
    }
  }

  lemma NextCoupled(setup: Setup, rate: SampleRate, task: Task, event: Event)
    requires Bound(setup) && Inv(setup, task) && Coupled(setup, rate, task) && ExactRate(setup, rate)
    ensures Coupled(setup, rate, Next(setup, task, event))
  {
    var next := Next(setup, task, event);
    hide Tells, Shape, Flags, Rules.Replay, Next;
    if next == task {
    } else if task.pc.Sending? && event.Granted? && task.recordsQueued < U64_MAX {
      SendCoupled(setup, rate, task);
    } else {
      KeepsPhase(setup, task, event);
    }
  }

  /**
   * Every record sequence a bound connection can send, under a profile of exactly the recorder's rate,
   * is accepted by that recorder exactly as long as its audio fits a WAVE file.
   */
  lemma {:induction false} ProducerMeetsConsumer(setup: Setup, rate: SampleRate, events: seq<Event>)
    requires Bound(setup) && ExactRate(setup, rate)
    ensures var verdict := Rules.Replay(setup.id, rate, Run(setup, events).sent);
      && (verdict.Ok? <==> |Rules.AudioOf(Run(setup, events).sent)| + Rules.RIFF_OVERHEAD <= Rules.U32_MAX)
      && (verdict.Ok? || verdict.error == Rules.WaveSize)
    ensures Coupled(setup, rate, Run(setup, events))
    decreases |events|
  {
    if events != [] {
      hide Next, Inv, Coupled;
      var before := events[..|events| - 1];
      ProducerMeetsConsumer(setup, rate, before);
      RunInv(setup, before);
      NextCoupled(setup, rate, Run(setup, before), events[|events| - 1]);
    }
    CoupledVerdict(setup, rate, Run(setup, events));
    Rules.SizeIsAudio(setup.id, rate, Run(setup, events).sent);
  }

  lemma CoupledVerdict(setup: Setup, rate: SampleRate, task: Task)
    requires Coupled(setup, rate, task)
    ensures var verdict := Rules.Replay(setup.id, rate, task.sent); verdict.Ok? || verdict.error == Rules.WaveSize
  {
  }

  /** What the recorder keeps of a connection whose every byte it accepted: the read prefix and the admitted audio. */
  lemma {:induction false} RecordedIsDelivered(setup: Setup, rate: SampleRate, events: seq<Event>)
    requires Bound(setup) && ExactRate(setup, rate)
    requires Rules.Replay(setup.id, rate, Run(setup, events).sent).Ok?
    ensures var sent := Run(setup, events).sent;
      && Rules.WellFormed(setup.id, rate, sent)
      && RawBytes(sent) <= Run(setup, events).observed
      && Rules.AudioOf(sent) == Rules.AudioOf(ProtocolOf(sent))
  {
    Rules.AcceptsExactlyWellFormed(setup.id, rate, Run(setup, events).sent);
    DeliveredIsPrefix(setup, events, []);
    AudioIsProtocol(Run(setup, events).sent);
  }

  /** A recording of a connection that its peer ended holds exactly the audio that the peer's stream means. */
  lemma {:induction false} RecordedAudioIsMeant(setup: Setup, rate: SampleRate, events: seq<Event>, stream: seq<byte>)
    requires Bound(setup) && ExactRate(setup, rate)
    requires PeerSends(Run(setup, events), stream) && EndedByPeer(Run(setup, events))
    requires Rules.Replay(setup.id, rate, Run(setup, events).sent).Ok?
    ensures Rules.AudioOf(Run(setup, events).sent) == Rules.AudioOf(Whole(setup, stream))
  {
    CompleteDelivery(setup, events, stream);
    AudioIsProtocol(Run(setup, events).sent);
  }

  lemma {:induction false} AudioIsProtocol(sent: seq<Record>)
    ensures Rules.AudioOf(sent) == Rules.AudioOf(ProtocolOf(sent))
    decreases |sent|
  {
    if sent != [] {
      var before, last := sent[..|sent| - 1], sent[|sent| - 1];
      AudioIsProtocol(before);
      var told := ProtocolOf(sent);
      if last.Protocol() {
        assert told[..|told| - 1] == ProtocolOf(before);
      } else {
        assert told == ProtocolOf(before);
      }
    }
  }
}
