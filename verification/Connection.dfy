/** One connection's task: explicit suspension points, decoder, session and progress counters. */
module Connection {
  import opened Wire
  import opened Records
  import opened Meaning
  import opened Framing
  import Envelope
  import Session

  const READ_BYTES: nat := 4096

  /** What a granted byte copy is for. */
  datatype CopyGoal =
    | ForWire(start: nat)
    | ForAudio(uuid: Uuid, rate: SampleRate)
    | ForPeerError(identity: Option<Uuid>)

  /** Where a successful handoff resumes. */
  datatype Resume = ToRead | ToDecode | ToObserved | ToStop

  /** The suspension points of the task. */
  datatype Pc =
    | Sending(record: Record, resume: Resume)
    | AwaitingRead
    | Copying(bytes: seq<byte>, goal: CopyGoal)
    | BeforeFeed
    | BeforeTyped(raw: RawEnvelope)
    | Done

  /** `observed` and `sent` are histories: all bytes read and all records the channel accepted. */
  datatype Task = Task(
    pc: Pc,
    decoder: Progress,
    session: Session.SessionState,
    input: seq<byte>,
    read: nat,
    consumed: nat,
    wireQueued: nat,
    recordsQueued: nat,
    pendingRecord: bool,
    terminalQueued: bool,
    counterOverflow: bool,
    observed: seq<byte>,
    sent: seq<Record>)

  /** What the outside lets a suspended task find when it is polled. */
  datatype Event =
    | Parked
    | Granted
    | ReadChunk(chunk: seq<byte>)
    | ReadEof
    | ReadError
    | ConsumerGone
    | Cancelled

  function Handoff(task: Task, setup: Setup, kind: RecordKind, offset: nat, resume: Resume): Task {
    task.(pc := Sending(Record(setup.id, offset, kind), resume), pendingRecord := true)
  }

  function Start(setup: Setup): Task {
    Handoff(Task(Done, Live([]), Session.AwaitingUuid, [], 0, 0, 0, 0, false, false, false, [], []),
            setup, Connected, 0, ToRead)
  }

  /** The decode loop goes on while the chunk has bytes left. */
  function Decoding(task: Task): Task {
    task.(pc := if task.input == [] then AwaitingRead else BeforeFeed)
  }

  function AfterSend(task: Task, resume: Resume): Task {
    match resume
    case ToRead => task.(pc := AwaitingRead)
    case ToDecode => Decoding(task)
    case ToObserved => if task.session.Identity().None? then task.(pc := Done) else Decoding(task)
    case ToStop => task.(pc := Done)
  }

  function Send(task: Task): Task
    requires task.pc.Sending?
  {
    if task.recordsQueued == U64_MAX then task.(pc := Done, counterOverflow := true)
    else
      var kind := task.pc.record.kind;
      AfterSend(
        task.(pendingRecord := false,
              terminalQueued := task.terminalQueued || kind.Ended?,
              wireQueued := task.wireQueued + if kind.WireBytes? then |kind.bytes| else 0,
              recordsQueued := task.recordsQueued + 1,
              sent := task.sent + [task.pc.record]),
        task.pc.resume)
  }

  function ObserveRead(setup: Setup, task: Task, chunk: seq<byte>): Task {
    if task.read + |chunk| > U64_MAX then
      Handoff(task.(counterOverflow := true), setup, Ended(task.session.Identity(), OffsetExhausted),
              task.consumed, ToStop)
    else
      task.(pc := Copying(chunk, ForWire(task.read)),
            input := chunk,
            read := task.read + |chunk|,
            observed := task.observed + chunk)
  }

  function EndOfStream(setup: Setup, task: Task): Task {
    var identity := task.session.Identity();
    match Finish(task.decoder)
    case Some(error) => Handoff(task, setup, Ended(identity, Truncated(error)), task.consumed, ToStop)
    case None =>
      var (next, verdict) := Session.FinishInput(task.session);
      Handoff(task.(session := next), setup,
              Ended(identity, if verdict.Ok? then CleanEof else Policy(verdict.error)), task.consumed, ToStop)
  }

  function CopyDone(setup: Setup, task: Task): Task
    requires task.pc.Copying?
  {
    var bytes := task.pc.bytes;
    if |bytes| > setup.budgetCapacity then
      var reason := ResourceRefused(TooLarge(|bytes|, setup.budgetCapacity));
      match task.pc.goal
      case ForWire(start) => Handoff(task, setup, Ended(task.session.Identity(), reason), start, ToStop)
      case ForAudio(uuid, _) => Handoff(task, setup, Ended(Some(uuid), reason), task.consumed, ToObserved)
      case ForPeerError(identity) => Handoff(task, setup, Ended(identity, reason), task.consumed, ToObserved)
    else
      match task.pc.goal
      case ForWire(start) => Handoff(task, setup, WireBytes(bytes), start, ToDecode)
      case ForAudio(uuid, rate) => Handoff(task, setup, AudioBytes(uuid, rate, bytes), task.consumed, ToObserved)
      case ForPeerError(identity) => Handoff(task, setup, Ended(identity, PeerFailure(bytes)),
                                             task.consumed, ToObserved)
  }

  function FeedStep(setup: Setup, task: Task): Task
    requires Settled(AnyLength, setup.payloadCapacity, task.decoder)
  {
    var fed := Advance(AnyLength, setup.payloadCapacity, task.decoder, task.input);
    var fedTask := task.(decoder := fed.after, input := task.input[fed.consumed..]);
    if task.consumed + fed.consumed > U64_MAX then
      Handoff(fedTask.(counterOverflow := true), setup, Ended(task.session.Identity(), OffsetExhausted),
              task.consumed, ToStop)
    else
      var counted := fedTask.(consumed := task.consumed + fed.consumed);
      match fed.outcome
      case NeedInput => counted.(pc := AwaitingRead)
      case Error(error) =>
        Handoff(counted, setup, Ended(task.session.Identity(), Decode(error)), counted.consumed, ToStop)
      case Frame(raw) => counted.(pc := BeforeTyped(raw))
  }

  function TypedStep(setup: Setup, task: Task, raw: RawEnvelope): Task {
    match Envelope.Typed(raw)
    case Err(error) => Handoff(task, setup, Ended(task.session.Identity(), InvalidMessage(error)),
                               task.consumed, ToStop)
    case Ok(message) =>
      var identity := task.session.Identity();
      var (next, verdict) := Session.Receive(setup.profile, task.session, message);
      var received := task.(session := next);
      match verdict
      case Err(error) => Handoff(received, setup, Ended(identity, Policy(error)), task.consumed, ToStop)
      case Ok(event) => Observe(setup, received, event)
  }

  function Observe(setup: Setup, task: Task, event: Session.IncomingEvent): Task {
    match event
    case AudioEvent(uuid, rate, payload) => task.(pc := Copying(payload, ForAudio(uuid, rate)))
    case Ended(identity, EndPeerError(payload)) => task.(pc := Copying(payload, ForPeerError(identity)))
    case _ => Handoff(task, setup, KindOf(event), task.consumed, ToObserved)
  }

  /** One poll up to the next suspension point; an event that does not concern the point changes nothing. */
  function Next(setup: Setup, task: Task, event: Event): (next: Task)
    requires Settled(AnyLength, setup.payloadCapacity, task.decoder)
    ensures Settled(AnyLength, setup.payloadCapacity, next.decoder)
  {
    if event.Cancelled? then task.(pc := Done)
    else
      match task.pc
      case Sending(_, _) =>
        if event.Granted? then Send(task) else if event.ConsumerGone? then task.(pc := Done) else task
      case AwaitingRead =>
        (match event
         case ReadChunk(chunk) => if 0 < |chunk| <= READ_BYTES then ObserveRead(setup, task, chunk) else task
         case ReadEof => EndOfStream(setup, task)
         case ReadError =>
           Handoff(task, setup, Ended(task.session.Identity(), Transport), task.consumed, ToStop)
         case _ => task)
      case Copying(_, _) => if event.Granted? then CopyDone(setup, task) else task
      case BeforeFeed => if event.Granted? then FeedStep(setup, task) else task
      case BeforeTyped(raw) => if event.Granted? then TypedStep(setup, task, raw) else task
      case Done => task
  }

  /** The task after a whole schedule of polls. */
  function Run(setup: Setup, events: seq<Event>): (task: Task)
    ensures Settled(AnyLength, setup.payloadCapacity, task.decoder)
  {
    if events == [] then Start(setup)
    else Next(setup, Run(setup, events[..|events| - 1]), events[|events| - 1])
  }

  lemma {:induction false} RunMore(setup: Setup, events: seq<Event>, event: Event)
    ensures Run(setup, events + [event]) == Next(setup, Run(setup, events), event)
  {
    assert (events + [event])[..|events|] == events;
  }

  /** Only a grant hands the record in hand over, and only while its counter holds. */
  lemma StepSends(setup: Setup, task: Task, event: Event)
    requires Settled(AnyLength, setup.payloadCapacity, task.decoder)
    ensures Next(setup, task, event).sent ==
      if task.pc.Sending? && event.Granted? && task.recordsQueued != U64_MAX then task.sent + [task.pc.record]
      else task.sent
  {
    hide Settled, Advance, TypedStep, FeedStep;
    match task.pc
    case BeforeFeed => FeedSends(setup, task);
    case BeforeTyped(raw) => TypedSends(setup, task, raw);
    case _ =>
  }

  lemma FeedSends(setup: Setup, task: Task)
    requires Settled(AnyLength, setup.payloadCapacity, task.decoder)
    ensures FeedStep(setup, task).sent == task.sent
  {
    hide Settled, Advance;
  }

  lemma TypedSends(setup: Setup, task: Task, raw: RawEnvelope)
    ensures TypedStep(setup, task, raw).sent == task.sent
  {
    hide Session.Receive, Envelope.Typed;
  }
}
