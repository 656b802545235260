/** The bounded record channel that all tasks share. */
module Handoff {
  import opened Records

  datatype SendOutcome = Accepted | QueueFull(record: Record) | Disconnected(record: Record)

  datatype ReceiveOutcome = Received(record: Record) | Empty | NoSender

  /** `unannounced` counts removals whose wake is still to come; `credits` and `goodbyes` count the wakes given. */
  datatype Channel = Channel(
    capacity: nat,
    queue: seq<Record>,
    senderAlive: bool,
    consumerAlive: bool,
    unannounced: nat,
    credits: nat,
    goodbyes: nat)

  function TrySend(channel: Channel, record: Record): (Channel, SendOutcome) {
    if !channel.consumerAlive then (channel, Disconnected(record))
    else if |channel.queue| >= channel.capacity then (channel, QueueFull(record))
    else (channel.(queue := channel.queue + [record]), Accepted)
  }

  /** The removal alone: the wake is a second step, which other threads may precede. */
  function Remove(channel: Channel): (Channel, ReceiveOutcome) {
    if channel.queue != [] then
      (channel.(queue := channel.queue[1..], unannounced := channel.unannounced + 1), Received(channel.queue[0]))
    else (channel, if channel.senderAlive then Empty else NoSender)
  }

  function Announce(channel: Channel): Channel {
    if channel.unannounced == 0 then channel
    else channel.(unannounced := channel.unannounced - 1, credits := channel.credits + 1)
  }

  /** The consumer goes: what is queued goes with it, and then the worker is told. */
  function DropConsumer(channel: Channel): Channel {
    if !channel.consumerAlive then channel
    else channel.(queue := [], consumerAlive := false, goodbyes := channel.goodbyes + 1)
  }

  /** The channel object. A receive that finds a record wakes the worker after the removal, once. */
  class RecordChannel {
    const capacity: nat
    var queue: seq<Record>
    var senderAlive: bool
    var consumerAlive: bool
    var credits: nat
    var goodbyes: nat

    ghost function Value(): Channel
      reads this
    {
      Channel(capacity, queue, senderAlive, consumerAlive, 0, credits, goodbyes)
    }

    constructor (capacity: nat)
      requires capacity > 0
      ensures Value() == Channel(capacity, [], true, true, 0, 0, 0)
    {
      this.capacity, queue, senderAlive, consumerAlive, credits, goodbyes := capacity, [], true, true, 0, 0;
    }

    method Send(record: Record) returns (outcome: SendOutcome)
      modifies `queue
      ensures (Value(), outcome) == TrySend(old(Value()), record)
      ensures outcome.Accepted? <==> consumerAlive && old(|queue|) < capacity
      ensures queue == if outcome.Accepted? then old(queue) + [record] else old(queue)
      ensures outcome.Disconnected? <==> !consumerAlive
      ensures !outcome.Accepted? ==> outcome.record == record
    {
      if !consumerAlive {
        return Disconnected(record);
      }
      if |queue| >= capacity {
        return QueueFull(record);
      }
      queue := queue + [record];
      outcome := Accepted;
    }

    method Receive() returns (outcome: ReceiveOutcome)
      modifies `queue, `credits
      ensures outcome == Remove(old(Value())).1 && Value() == Announce(Remove(old(Value())).0)
      ensures outcome.Received? <==> old(queue) != []
      ensures outcome.Received? ==>
        outcome.record == old(queue[0]) && queue == old(queue[1..]) && credits == old(credits) + 1
      ensures outcome.NoSender? <==> old(queue) == [] && !senderAlive
      ensures !outcome.Received? ==> unchanged(this)
    {
      if queue == [] {
        return if senderAlive then Empty else NoSender;
      }
      outcome := Received(queue[0]);
      queue := queue[1..];
      credits := credits + 1;
    }

    method Drop()
      requires consumerAlive
      modifies `queue, `consumerAlive, `goodbyes
      ensures Value() == DropConsumer(old(Value()))
    {
      queue, consumerAlive := [], false;
      goodbyes := goodbyes + 1;
    }
  }

  /** A channel in use, with what it accepted and what its consumer was given. */
  datatype Use = Use(channel: Channel, accepted: seq<Record>, received: seq<Record>)

  datatype Step = Send(record: Record) | Take | Wake | LastSenderGone | ConsumerGone

  function Next(use: Use, step: Step): Use {
    match step
    case Send(record) =>
      if !use.channel.senderAlive then use
      else
        var (channel, outcome) := TrySend(use.channel, record);
        use.(channel := channel, accepted := if outcome.Accepted? then use.accepted + [record] else use.accepted)
    case Take =>
      if !use.channel.consumerAlive then use
      else
        var (channel, outcome) := Remove(use.channel);
        use.(channel := channel,
             received := if outcome.Received? then use.received + [outcome.record] else use.received)
    case Wake => use.(channel := Announce(use.channel))
    case LastSenderGone => use.(channel := use.channel.(senderAlive := false))
    case ConsumerGone => use.(channel := DropConsumer(use.channel))
  }

  function Run(capacity: nat, steps: seq<Step>): Use {
    if steps == [] then Use(Channel(capacity, [], true, true, 0, 0, 0), [], [])
    else Next(Run(capacity, steps[..|steps| - 1]), steps[|steps| - 1])
  }

  /** Nothing accepted is lost, doubled or moved while the consumer lives; each removal is announced once. */
  predicate Kept(use: Use) {
    && |use.channel.queue| <= use.channel.capacity
    && use.received <= use.accepted
    && (use.channel.consumerAlive ==> use.accepted == use.received + use.channel.queue)
    && (!use.channel.consumerAlive ==> use.channel.queue == [])
    && |use.received| == use.channel.credits + use.channel.unannounced
    && use.channel.goodbyes == (if use.channel.consumerAlive then 0 else 1)
  }

  lemma NextKept(use: Use, step: Step)
    requires Kept(use)
    ensures Kept(Next(use, step))
  {
    var next := Next(use, step);
    if step.Take? && use.channel.queue != [] {
      var queue := use.channel.queue;
      assert queue == [queue[0]] + queue[1..];
      assert use.received + queue == (use.received + [queue[0]]) + queue[1..];
    } else if step.Send? {
      assert next.accepted != use.accepted ==>
        next.accepted == use.received + (use.channel.queue + [step.record]);
    }
  }

  lemma {:induction false} AlwaysKept(capacity: nat, steps: seq<Step>)
    ensures Kept(Run(capacity, steps)) && Run(capacity, steps).channel.capacity == capacity
    decreases |steps|
  {
    if steps != [] {
      AlwaysKept(capacity, steps[..|steps| - 1]);
      NextKept(Run(capacity, steps[..|steps| - 1]), steps[|steps| - 1]);
    }
  }

  /** Senders and the consumer are alive until their own step says that they are gone. */
  lemma {:induction false} AliveIff(capacity: nat, steps: seq<Step>)
    ensures Run(capacity, steps).channel.senderAlive <==> LastSenderGone !in steps
    ensures Run(capacity, steps).channel.consumerAlive <==> ConsumerGone !in steps
    decreases |steps|
  {
    if steps != [] {
      var before := steps[..|steps| - 1];
      AliveIff(capacity, before);
      assert steps == before + [steps[|steps| - 1]];
    }
  }

  /** What a consumer is told, from the run alone: a record while any is left, and disconnection after the senders. */
  lemma AnswersExactly(capacity: nat, steps: seq<Step>)
    requires ConsumerGone !in steps
    ensures var use := Run(capacity, steps);
      match Remove(use.channel).1
      case Received(record) =>
        |use.received| < |use.accepted| && record == use.accepted[|use.received|]
      case Empty => use.received == use.accepted && LastSenderGone !in steps
      case NoSender => use.received == use.accepted && LastSenderGone in steps
  {
    AlwaysKept(capacity, steps);
    AliveIff(capacity, steps);
  }

  /** Disconnection is final: nothing is accepted any more, and every later answer is the same. */
  lemma {:induction false} NoSenderForGood(capacity: nat, steps: seq<Step>, more: seq<Step>)
    requires ConsumerGone !in steps && Remove(Run(capacity, steps).channel).1.NoSender?
    ensures Run(capacity, steps + more).accepted == Run(capacity, steps).accepted
    ensures Run(capacity, steps + more).channel.queue == [] && !Run(capacity, steps + more).channel.senderAlive
    ensures Remove(Run(capacity, steps + more).channel).1.NoSender?
    decreases |more|
  {
    if more == [] {
      assert steps + more == steps;
    } else {
      var front := more[..|more| - 1];
      assert (steps + more)[..|steps + more| - 1] == steps + front;
      NoSenderForGood(capacity, steps, front);
    }
  }

  /** Emptiness is not: the next record sent is accepted, and is the next that the consumer is given. */
  lemma {:induction false} EmptyThenSent(capacity: nat, steps: seq<Step>, record: Record)
    requires ConsumerGone !in steps && capacity > 0 && Remove(Run(capacity, steps).channel).1.Empty?
    ensures var use := Run(capacity, steps + [Send(record)]);
      && use.accepted == Run(capacity, steps).accepted + [record]
      && Remove(use.channel).1 == Received(record)
  {
    AlwaysKept(capacity, steps);
    AliveIff(capacity, steps);
    assert (steps + [Send(record)])[..|steps|] == steps;
  }

  /** A consumer that reads until it is told that no sender is left was given everything that was accepted. */
  lemma {:induction false} ReadToTheEnd(capacity: nat, steps: seq<Step>)
    requires Run(capacity, steps).channel.consumerAlive && Remove(Run(capacity, steps).channel).1.NoSender?
    ensures Run(capacity, steps).received == Run(capacity, steps).accepted
  {
    AlwaysKept(capacity, steps);
  }

  /** A sender that is refused keeps its record; after the consumer is gone nothing is ever accepted. */
  lemma {:induction false} NothingAfterConsumer(capacity: nat, steps: seq<Step>, more: seq<Step>)
    requires !Run(capacity, steps).channel.consumerAlive
    ensures Run(capacity, steps + more).accepted == Run(capacity, steps).accepted
    ensures Run(capacity, steps + more).received == Run(capacity, steps).received
    ensures !Run(capacity, steps + more).channel.consumerAlive
    ensures forall record :: TrySend(Run(capacity, steps + more).channel, record).1 == Disconnected(record)
    decreases |more|
  {
    if more == [] {
      assert steps + more == steps;
    } else {
      var front := more[..|more| - 1];
      assert (steps + more)[..|steps + more| - 1] == steps + front;
      NothingAfterConsumer(capacity, steps, front);
    }
  }

  lemma KeptAll(use: Use)
    requires Kept(use) && use.channel.consumerAlive && Remove(use.channel).1.NoSender?
    ensures use.received == use.accepted
  {
  }

  lemma KeptPrefix(use: Use)
    requires Kept(use)
    ensures use.received <= use.accepted
  {
  }
}
