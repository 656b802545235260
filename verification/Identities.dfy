/** Who a record is about, for every setup and schedule: the call that its own connection announced before. */
module Identities {
  import opened Wire
  import opened Records
  import opened Meaning
  import opened Framing
  import opened Connection
  import Envelope
  import Session

  /** The call that records announced so far. */
  function Announced(told: seq<Record>): Option<Uuid> {
    if told == [] then None
    else
      var last := told[|told| - 1];
      if last.kind.Started? then Some(last.kind.uuid) else Announced(told[..|told| - 1])
  }

  /** A record that follows `told` names the call announced there; a refusal of bytes names the budget they pass. */
  predicate Names(setup: Setup, record: Record, told: seq<Record>) {
    && record.connection == setup.id
    && match record.kind
       case Started(_) => Announced(told) == None
       case AudioBytes(uuid, _, _) => Announced(told) == Some(uuid)
       case Dtmf(uuid, _) => Announced(told) == Some(uuid)
       case Ended(identity, reason) =>
         && identity == Announced(told)
         && (reason.ResourceRefused? ==>
               reason.budget.TooLarge? && reason.budget.capacity == setup.budgetCapacity < reason.budget.required)
       case _ => true
  }

  /** The session knows the call that was announced. */
  predicate Knows(task: Task) {
    !task.session.SessionEnded? && task.session.Identity() == Announced(task.sent)
  }

  /** What a task holds between two polls names the announced call. */
  predicate Agrees(setup: Setup, task: Task) {
    match task.pc
    case Done => true
    case Sending(record, resume) =>
      && Names(setup, record, task.sent)
      && (record.kind.Started? ==> task.session == Session.Active(record.kind.uuid) && resume.ToObserved?)
      && (!record.kind.Started? && !task.session.SessionEnded? ==> Knows(task))
      && (resume.ToDecode? || resume.ToRead? ==> !task.session.SessionEnded?)
    case Copying(_, ForWire(_)) => Knows(task)
    case Copying(_, ForAudio(uuid, _)) => Knows(task) && Announced(task.sent) == Some(uuid)
    case Copying(_, ForPeerError(identity)) => task.session.SessionEnded? && identity == Announced(task.sent)
    case _ => Knows(task)
  }

  lemma AnnouncedMore(told: seq<Record>, record: Record)
    ensures Announced(told + [record])
      == if record.kind.Started? then Some(record.kind.uuid) else Announced(told)
  {
    assert (told + [record])[..|told|] == told;
  }

  lemma SentAgrees(setup: Setup, task: Task)
    requires Agrees(setup, task) && task.pc.Sending?
    ensures Agrees(setup, Send(task))
  {
    AnnouncedMore(task.sent, task.pc.record);
    hide Announced;
  }

  lemma ReceivedNames(profile: Session.IncomingProfile, state: Session.SessionState, message: TypedMessage)
    requires !state.SessionEnded?
    ensures var (next, verdict) := Session.Receive(profile, state, message);
      && (verdict.Err? ==> next.SessionEnded?)
      && (verdict.Ok? ==>
            match verdict.value
            case Started(uuid) => state.AwaitingUuid? && next == Session.Active(uuid)
            case AudioEvent(uuid, _, _) => state == next == Session.Active(uuid)
            case DtmfEvent(uuid, _) => state == next == Session.Active(uuid)
            case Ended(identity, reason) =>
              identity == state.Identity() && next.SessionEnded? && !reason.EndOfInput?)
  {
  }

  lemma ObservedAgrees(setup: Setup, task: Task, next: Session.SessionState, event: Session.IncomingEvent)
    requires Knows(task)
    requires match event
             case Started(uuid) => task.session.AwaitingUuid? && next == Session.Active(uuid)
             case AudioEvent(uuid, _, _) => task.session == next == Session.Active(uuid)
             case DtmfEvent(uuid, _) => task.session == next == Session.Active(uuid)
             case Ended(identity, reason) =>
               identity == task.session.Identity() && next.SessionEnded? && !reason.EndOfInput?
    ensures Agrees(setup, Observe(setup, task.(session := next), event))
  {
    hide Announced;
  }

  lemma TypedAgrees(setup: Setup, task: Task, raw: RawEnvelope)
    requires Knows(task)
    ensures Agrees(setup, TypedStep(setup, task, raw))
  {
    hide Envelope.Typed, Session.Receive, Announced, Observe;
    if Envelope.Typed(raw).Ok? {
      var message := Envelope.Typed(raw).value;
      ReceivedNames(setup.profile, task.session, message);
      var (next, verdict) := Session.Receive(setup.profile, task.session, message);
      if verdict.Ok? {
        ObservedAgrees(setup, task, next, verdict.value);
      }
    }
  }

  lemma HeldAgrees(setup: Setup, task: Task)
    requires Settled(AnyLength, setup.payloadCapacity, task.decoder) && Agrees(setup, task)
    ensures task.pc.Copying? ==> Agrees(setup, CopyDone(setup, task))
    ensures task.pc.BeforeFeed? ==> Agrees(setup, FeedStep(setup, task))
    ensures task.pc.AwaitingRead? ==> Agrees(setup, EndOfStream(setup, task))
    ensures task.pc.AwaitingRead? ==> forall chunk :: Agrees(setup, ObserveRead(setup, task, chunk))
  {
    hide Settled, Advance, Announced, Finish;
  }

  lemma NextAgrees(setup: Setup, task: Task, event: Event)
    requires Settled(AnyLength, setup.payloadCapacity, task.decoder) && Agrees(setup, task)
    ensures Agrees(setup, Next(setup, task, event))
  {
    hide Settled, Announced, Send, TypedStep, CopyDone, FeedStep, EndOfStream, ObserveRead;
    HeldAgrees(setup, task);
    match task.pc
    case Sending(_, _) => SentAgrees(setup, task);
    case BeforeTyped(raw) => TypedAgrees(setup, task, raw);
    case _ =>
  }

  /** Over every setup and schedule, each record names the call announced before it, an end the call it ends. */
  lemma {:induction false} EveryRecordNames(setup: Setup, events: seq<Event>)
    ensures var task := Run(setup, events);
      Agrees(setup, task) && forall i :: 0 <= i < |task.sent| ==> Names(setup, task.sent[i], task.sent[..i])
    decreases |events|
  {
    hide Next, Names;
    if events == [] {
      StartAgrees(setup);
    } else {
      var before, event := events[..|events| - 1], events[|events| - 1];
      EveryRecordNames(setup, before);
      var task, next := Run(setup, before), Run(setup, events);
      NextAgrees(setup, task, event);
      StepSends(setup, task, event);
      forall i | 0 <= i < |next.sent|
        ensures Names(setup, next.sent[i], next.sent[..i])
      {
        assert next.sent[..i] == task.sent[..i];
        assert task.sent[..|task.sent|] == task.sent;
      }
    }
  }

  lemma StartAgrees(setup: Setup)
    ensures Agrees(setup, Start(setup))
  {
  }

  /** A task that is cancelled, or whose record finds no consumer, tells and counts nothing more. */
  lemma {:induction false} StopsForGood(setup: Setup, events: seq<Event>, event: Event, more: seq<Event>)
    requires event.Cancelled? || (event.ConsumerGone? && Run(setup, events).pc.Sending?)
    ensures Run(setup, events + [event] + more) == Run(setup, events).(pc := Done)
    decreases |more|
  {
    var all := events + [event] + more;
    if more == [] {
      assert all[..|all| - 1] == events;
    } else {
      StopsForGood(setup, events, event, more[..|more| - 1]);
      assert all[..|all| - 1] == events + [event] + more[..|more| - 1];
    }
  }
}
