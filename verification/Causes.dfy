/** Why a connection ended from outside its stream: each such end names what its socket or its counters did. */
module Causes {
  import opened Wire
  import opened Records
  import opened Meaning
  import opened Framing
  import opened Connection
  import opened Delivery
  import Envelope
  import Session

  /** One more read would pass the 64-bit stream position. */
  predicate PositionFails(task: Task, event: Event) {
    && task.pc.AwaitingRead? && event.ReadChunk? && 0 < |event.chunk| <= READ_BYTES
    && |task.observed| + |event.chunk| > U64_MAX
  }

  /** One more record would pass the 64-bit record counter. */
  predicate CountFails(task: Task, event: Event) {
    task.pc.Sending? && event.Granted? && |task.sent| == U64_MAX
  }

  lemma OverflowStep(setup: Setup, task: Task, event: Event)
    requires Inv(setup, task)
    ensures Next(setup, task, event).counterOverflow
      <==> task.counterOverflow || PositionFails(task, event) || CountFails(task, event)
  {
    hide Inv, FeedStep, TypedStep, CopyDone, EndOfStream, AfterSend;
    Histories(setup, task);
    match task.pc
    case BeforeFeed => FedCause(setup, task);
    case BeforeTyped(raw) => TypedCause(setup, task, raw);
    case Copying(_, _) => CopyCounts(setup, task);
    case Sending(_, resume) => SendCounts(task, resume);
    case AwaitingRead => EofCounts(setup, task);
    case _ =>
  }

  lemma CopyCounts(setup: Setup, task: Task)
    requires task.pc.Copying?
    ensures CopyDone(setup, task).counterOverflow == task.counterOverflow
  {
  }

  lemma SendCounts(task: Task, resume: Resume)
    ensures forall after: Task :: AfterSend(after, resume).counterOverflow == after.counterOverflow
  {
  }

  lemma EofCounts(setup: Setup, task: Task)
    ensures EndOfStream(setup, task).counterOverflow == task.counterOverflow
  {
  }

  lemma Histories(setup: Setup, task: Task)
    requires Inv(setup, task)
    ensures |task.observed| == task.read && |task.sent| == task.recordsQueued
  {
  }

  /** Feeding passes no counter, for its input was read, and ends for what the bytes say. */
  lemma FedCause(setup: Setup, task: Task)
    requires Inv(setup, task) && task.pc.BeforeFeed?
    ensures var next := FeedStep(setup, task);
      && next.counterOverflow == task.counterOverflow
      && (next.pc.Sending? ==> next.pc.record.kind.Ended? && next.pc.record.kind.reason.Decode?)
  {
    hide Tells, Flags, ParseFront;
  }

  lemma TypedCause(setup: Setup, task: Task, raw: RawEnvelope)
    ensures var next := TypedStep(setup, task, raw);
      && next.counterOverflow == task.counterOverflow
      && (next.pc.Sending? && next.pc.record.kind.Ended? ==>
            var reason := next.pc.record.kind.reason;
            reason.InvalidMessage? || reason.Policy? || reason.Terminated?)
  {
    hide Envelope.Typed;
    if Envelope.Typed(raw).Ok? {
      EndsByMessage(setup.profile, task.session, Envelope.Typed(raw).value);
    }
    hide Session.Receive;
  }

  lemma EndsByMessage(profile: Session.IncomingProfile, state: Session.SessionState, message: TypedMessage)
    ensures var verdict := Session.Receive(profile, state, message).1;
      verdict.Ok? && verdict.value.Ended? ==> !verdict.value.reason.EndOfInput?
  {
  }

  lemma CopyCause(setup: Setup, task: Task)
    requires Bound(setup) && Inv(setup, task) && task.pc.Copying?
    ensures var next := CopyDone(setup, task);
      && next.pc.Sending? && next.counterOverflow == task.counterOverflow
      && (next.pc.record.kind.Ended? ==> next.pc.record.kind.reason.PeerFailure?)
  {
    hide Tells, Flags, Counted, Settled;
  }

  predicate FailsAt(setup: Setup, events: seq<Event>, i: nat)
    requires i < |events|
  {
    PositionFails(Run(setup, events[..i]), events[i]) || CountFails(Run(setup, events[..i]), events[i])
  }

  /** A task reports an exhausted counter exactly if one of its counters could not count on. */
  lemma {:induction false} OverflowIff(setup: Setup, events: seq<Event>)
    requires Bound(setup)
    ensures Run(setup, events).counterOverflow <==> exists i :: 0 <= i < |events| && FailsAt(setup, events, i)
    decreases |events|
  {
    hide Next, Inv, PositionFails, CountFails;
    if events != [] {
      var before, last := events[..|events| - 1], |events| - 1;
      OverflowIff(setup, before);
      RunInv(setup, before);
      OverflowStep(setup, Run(setup, before), events[last]);
      assert events[..last] == before;
      assert forall i :: 0 <= i < last ==> events[..i] == before[..i] && events[i] == before[i];
      if Run(setup, before).counterOverflow {
        var i :| 0 <= i < last && FailsAt(setup, before, i);
        assert FailsAt(setup, events, i);
      } else if Run(setup, events).counterOverflow {
        assert FailsAt(setup, events, last);
      } else {
        assert forall i :: 0 <= i < last ==> !FailsAt(setup, before, i);
        assert forall i :: 0 <= i < last ==> (FailsAt(setup, events, i) <==> FailsAt(setup, before, i));
      }
    }
  }

  /** The reasons that need a cause outside the stream, and that cause. */
  predicate CausedBy(setup: Setup, events: seq<Event>, reason: EndReason) {
    match reason
    case Transport => ReadError in events
    case CleanEof => ReadEof in events
    case Truncated(_) => ReadEof in events
    case OffsetExhausted => exists i :: 0 <= i < |events| && FailsAt(setup, events, i)
    case ResourceRefused(_) => false
    case _ => true
  }

  predicate AllCaused(setup: Setup, events: seq<Event>, task: Task) {
    && (task.pc.Sending? && task.pc.record.kind.Ended? ==> CausedBy(setup, events, task.pc.record.kind.reason))
    && forall record <- task.sent :: record.kind.Ended? ==> CausedBy(setup, events, record.kind.reason)
  }

  lemma CausedMore(setup: Setup, events: seq<Event>, event: Event, reason: EndReason)
    requires CausedBy(setup, events, reason)
    ensures CausedBy(setup, events + [event], reason)
  {
    if reason.OffsetExhausted? {
      var i :| 0 <= i < |events| && FailsAt(setup, events, i);
      assert (events + [event])[..i] == events[..i];
      assert FailsAt(setup, events + [event], i);
    }
  }

  /** A record that was not in hand before was made by this step, for a reason that the step shows. */
  lemma NewInHand(setup: Setup, task: Task, event: Event)
    requires Bound(setup) && Inv(setup, task)
    ensures var next := Next(setup, task, event);
      next.pc.Sending? && next.pc.record.kind.Ended? && next.pc != task.pc ==>
        match next.pc.record.kind.reason
        case Transport => event.ReadError?
        case CleanEof => event.ReadEof?
        case Truncated(_) => event.ReadEof?
        case OffsetExhausted => PositionFails(task, event)
        case ResourceRefused(_) => false
        case _ => true
  {
    hide Inv, FeedStep, TypedStep, CopyDone, Bound;
    match task.pc
    case BeforeFeed => FedCause(setup, task);
    case BeforeTyped(raw) => TypedCause(setup, task, raw);
    case Copying(_, _) => CopyCause(setup, task);
    case _ => Histories(setup, task);
  }

  /** Over every schedule: an end from outside has its cause, and a bound connection is never refused bytes. */
  lemma {:induction false} EndHasCause(setup: Setup, events: seq<Event>)
    requires Bound(setup)
    ensures AllCaused(setup, events, Run(setup, events))
    decreases |events|
  {
    hide Next, Inv, CausedBy, PositionFails;
    if events != [] {
      var before, event := events[..|events| - 1], events[|events| - 1];
      EndHasCause(setup, before);
      RunInv(setup, before);
      var task := Run(setup, before);
      NewInHand(setup, task, event);
      StepSends(setup, task, event);
      assert events == before + [event] && events[..|before|] == before;
      forall reason | CausedBy(setup, before, reason)
        ensures CausedBy(setup, events, reason)
      {
        CausedMore(setup, before, event, reason);
      }
      NewCaused(setup, before, event);
    }
  }

  lemma NewCaused(setup: Setup, before: seq<Event>, event: Event)
    requires Bound(setup) && Inv(setup, Run(setup, before))
    ensures var next := Next(setup, Run(setup, before), event);
      next.pc.Sending? && next.pc.record.kind.Ended? && next.pc != Run(setup, before).pc ==>
        CausedBy(setup, before + [event], next.pc.record.kind.reason)
  {
    hide Next, Inv, PositionFails;
    NewInHand(setup, Run(setup, before), event);
    var events := before + [event];
    assert events[..|before|] == before && events[|before|] == event;
    if PositionFails(Run(setup, before), event) {
      assert FailsAt(setup, events, |before|);
    }
  }
}
