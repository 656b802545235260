/** All connections of one receiver over their shared channel, from the peers to the consumer. */
module Fleet {
  import opened Wire
  import opened Records
  import opened Meaning
  import opened Connection
  import Delivery
  import Handoff
  import Identities
  import Pipeline
  import Rules = RecorderRules
  import Session
  import Traces

  /** What all connections of a receiver have in common. */
  datatype Site = Site(
    payloadCapacity: nat,
    profile: Session.IncomingProfile,
    budgetCapacity: nat,
    channelCapacity: nat)
  {
    function SetupOf(id: ConnectionId): Setup {
      Setup(id, payloadCapacity, profile, budgetCapacity)
    }

    function TaskOf(events: seq<Event>, id: ConnectionId): Task {
      Connection.Run(SetupOf(id), events)
    }
  }

  /** The channel in use, and what each task was polled with so far. */
  datatype Fleet = Fleet(use: Handoff.Use, events: map<ConnectionId, seq<Event>>)

  datatype Step =
    | Admitted(id: ConnectionId)
    | Polled(id: ConnectionId, event: Event)
    | Taken
    | Announced
    | ConsumerDropped
    | WorkerStopped

  function Advance(fleet: Fleet, id: ConnectionId, event: Event): Fleet
    requires id in fleet.events
  {
    fleet.(events := fleet.events[id := fleet.events[id] + [event]])
  }

  /**
   * A task that has a record in hand and its turn offers that record to the channel; what the channel answers is
   * what the task finds: accepted, full, or without a consumer. A task with exhausted counters does not offer it.
   */
  function Offer(site: Site, fleet: Fleet, id: ConnectionId): Fleet
    requires id in fleet.events && site.TaskOf(fleet.events[id], id).pc.Sending?
  {
    var task := site.TaskOf(fleet.events[id], id);
    if task.recordsQueued == U64_MAX then Advance(fleet, id, Granted)
    else
      match Handoff.TrySend(fleet.use.channel, task.pc.record).1
      case Accepted => Advance(fleet.(use := Handoff.Next(fleet.use, Handoff.Send(task.pc.record))), id, Granted)
      case QueueFull(_) => fleet
      case Disconnected(_) => Advance(fleet, id, ConsumerGone)
  }

  function Poll(site: Site, fleet: Fleet, id: ConnectionId, event: Event): Fleet
    requires id in fleet.events
  {
    if site.TaskOf(fleet.events[id], id).pc.Sending? then
      match event
      case Granted => Offer(site, fleet, id)
      case Cancelled => Advance(fleet, id, Cancelled)
      case _ => fleet
    else Advance(fleet, id, event)
  }

  function Next(site: Site, fleet: Fleet, step: Step): Fleet {
    match step
    case Admitted(id) =>
      if id in fleet.events || !fleet.use.channel.senderAlive then fleet else fleet.(events := fleet.events[id := []])
    case Polled(id, event) =>
      if id !in fleet.events || !fleet.use.channel.senderAlive then fleet else Poll(site, fleet, id, event)
    case Taken => fleet.(use := Handoff.Next(fleet.use, Handoff.Take))
    case Announced => fleet.(use := Handoff.Next(fleet.use, Handoff.Wake))
    case ConsumerDropped => fleet.(use := Handoff.Next(fleet.use, Handoff.ConsumerGone))
    case WorkerStopped =>
      Fleet(Handoff.Next(fleet.use, Handoff.LastSenderGone),
            map id | id in fleet.events :: fleet.events[id] + [Cancelled])
  }

  function Run(site: Site, steps: seq<Step>): Fleet {
    if steps == [] then
      Fleet(Handoff.Run(site.channelCapacity, []), map[])
    else Next(site, Run(site, steps[..|steps| - 1]), steps[|steps| - 1])
  }

  /** The channel accepted of each connection exactly what its task handed over, and nothing of anyone else. */
  ghost predicate Faithful(site: Site, fleet: Fleet) {
    && Handoff.Kept(fleet.use)
    && (forall id :: Of(fleet.use.accepted, id)
          == if id in fleet.events then site.TaskOf(fleet.events[id], id).sent else [])
  }

  /** A task only ever holds records of its own connection. */
  lemma HoldsOwn(setup: Setup, events: seq<Event>)
    ensures var pc := Connection.Run(setup, events).pc; pc.Sending? ==> pc.record.connection == setup.id
  {
    hide Connection.Run, Identities.Announced;
    Identities.EveryRecordNames(setup, events);
  }

  lemma {:induction false} AdvanceSends(setup: Setup, events: seq<Event>, event: Event)
    ensures var task, next := Connection.Run(setup, events), Connection.Run(setup, events + [event]);
      next.sent ==
        if task.pc.Sending? && event.Granted? && task.recordsQueued != U64_MAX then task.sent + [task.pc.record]
        else task.sent
  {
    hide Connection.Run, Connection.Next;
    RunMore(setup, events, event);
    StepSends(setup, Connection.Run(setup, events), event);
  }

  lemma AdvanceFaithful(site: Site, fleet: Fleet, id: ConnectionId, event: Event)
    requires Faithful(site, fleet) && id in fleet.events
    requires var task := site.TaskOf(fleet.events[id], id);
      !(task.pc.Sending? && event.Granted? && task.recordsQueued != U64_MAX)
    ensures Faithful(site, Advance(fleet, id, event))
  {
    hide Handoff.Kept, Of, Connection.Run;
    AdvanceSends(site.SetupOf(id), fleet.events[id], event);
  }

  lemma OfferFaithful(site: Site, fleet: Fleet, id: ConnectionId)
    requires Faithful(site, fleet) && id in fleet.events && fleet.use.channel.senderAlive
    requires site.TaskOf(fleet.events[id], id).pc.Sending?
    ensures Faithful(site, Offer(site, fleet, id))
  {
    hide Handoff.Kept, Of, Connection.Run;
    var task := site.TaskOf(fleet.events[id], id);
    if task.recordsQueued == U64_MAX {
      AdvanceFaithful(site, fleet, id, Granted);
    } else {
      match Handoff.TrySend(fleet.use.channel, task.pc.record).1
      case Disconnected(_) => AdvanceFaithful(site, fleet, id, ConsumerGone);
      case QueueFull(_) =>
      case Accepted =>
        var use, next := fleet.use, Offer(site, fleet, id);
        Handoff.NextKept(use, Handoff.Send(task.pc.record));
        HoldsOwn(site.SetupOf(id), fleet.events[id]);
        AdvanceSends(site.SetupOf(id), fleet.events[id], Granted);
        forall other
          ensures Of(next.use.accepted, other)
            == if other in next.events then site.TaskOf(next.events[other], other).sent else []
        {
          OfMore(use.accepted, task.pc.record, other);
        }
    }
  }

  lemma StopFaithful(site: Site, fleet: Fleet)
    requires Faithful(site, fleet)
    ensures Faithful(site, Next(site, fleet, WorkerStopped))
  {
    var next := Next(site, fleet, WorkerStopped);
    Handoff.NextKept(fleet.use, Handoff.LastSenderGone);
    hide Handoff.Kept, Of, Connection.Run;
    forall id
      ensures Of(next.use.accepted, id) == if id in next.events then site.TaskOf(next.events[id], id).sent else []
    {
      if id in fleet.events {
        AdvanceSends(site.SetupOf(id), fleet.events[id], Cancelled);
      }
    }
  }

  /** The consumer's steps accept nothing. */
  lemma ChannelFaithful(site: Site, fleet: Fleet, step: Handoff.Step)
    requires Faithful(site, fleet) && !step.Send?
    ensures Faithful(site, fleet.(use := Handoff.Next(fleet.use, step)))
  {
    Handoff.NextKept(fleet.use, step);
    hide Handoff.Kept, Of, Connection.Run;
  }

  lemma PollFaithful(site: Site, fleet: Fleet, id: ConnectionId, event: Event)
    requires Faithful(site, fleet) && id in fleet.events && fleet.use.channel.senderAlive
    ensures Faithful(site, Poll(site, fleet, id, event))
  {
    hide Faithful, Offer, Advance, Connection.Run;
    if !site.TaskOf(fleet.events[id], id).pc.Sending? || event.Cancelled? {
      AdvanceFaithful(site, fleet, id, event);
    } else if event.Granted? {
      OfferFaithful(site, fleet, id);
    }
  }

  lemma NextFaithful(site: Site, fleet: Fleet, step: Step)
    requires Faithful(site, fleet)
    ensures Faithful(site, Next(site, fleet, step))
  {
    hide Faithful, Poll, Handoff.Next;
    match step
    case Admitted(id) => NewTaskFaithful(site, fleet, id);
    case Polled(id, event) =>
      if id in fleet.events && fleet.use.channel.senderAlive { PollFaithful(site, fleet, id, event); }
    case Taken => ChannelFaithful(site, fleet, Handoff.Take);
    case Announced => ChannelFaithful(site, fleet, Handoff.Wake);
    case ConsumerDropped => ChannelFaithful(site, fleet, Handoff.ConsumerGone);
    case WorkerStopped => StopFaithful(site, fleet);
  }

  lemma NewTaskFaithful(site: Site, fleet: Fleet, id: ConnectionId)
    requires Faithful(site, fleet)
    ensures Faithful(site, Next(site, fleet, Admitted(id)))
  {
    hide Handoff.Kept, Of;
    assert site.TaskOf([], id).sent == [];
  }

  lemma {:induction false} RunFaithful(site: Site, steps: seq<Step>)
    ensures Faithful(site, Run(site, steps))
    decreases |steps|
  {
    if steps != [] {
      hide Faithful, Next;
      RunFaithful(site, steps[..|steps| - 1]);
      NextFaithful(site, Run(site, steps[..|steps| - 1]), steps[|steps| - 1]);
    }
  }

  /** What the consumer was given of one connection. */
  function Seen(fleet: Fleet, id: ConnectionId): seq<Record> {
    Of(fleet.use.received, id)
  }

  lemma {:induction false} SeenIsPrefix(site: Site, steps: seq<Step>, id: ConnectionId)
    ensures var fleet := Run(site, steps);
      Seen(fleet, id) <= if id in fleet.events then site.TaskOf(fleet.events[id], id).sent else []
  {
    hide Run, Connection.Run, Handoff.Kept;
    RunFaithful(site, steps);
    var use := Run(site, steps).use;
    Handoff.KeptPrefix(use);
    PrefixOf(use.received, use.accepted, id);
  }

  /**
   * From the peers to the consumer, over every interleaving of all tasks, the worker's stop and the consumer: what
   * the consumer has of a connection is raw bytes that its peer sent, and protocol records that start what its
   * task told, keep the incoming policy, and come after the raw bytes they interpret.
   */
  lemma {:induction false} ConsumerSeesPrefix(site: Site, steps: seq<Step>, id: ConnectionId)
    requires id in Run(site, steps).events && Delivery.Bound(site.SetupOf(id))
    ensures var fleet := Run(site, steps);
      var seen, task := Seen(fleet, id), site.TaskOf(fleet.events[id], id);
      && RawBytes(seen) <= task.observed
      && ProtocolOf(seen) <= ProtocolOf(task.sent)
      && Traces.LegalRecords(site.profile, ProtocolOf(seen))
      && Delivery.Covered(seen)
  {
    hide Run, Connection.Run, RawBytes, ProtocolOf, ReadAll, Traces.LegalRecords, Delivery.Covered;
    var fleet := Run(site, steps);
    var setup, events := site.SetupOf(id), fleet.events[id];
    var seen, sent := Seen(fleet, id), Connection.Run(setup, events).sent;
    SeenIsPrefix(site, steps, id);
    PrefixMeans(seen, sent);
    Delivery.DeliveredIsPrefix(setup, events, []);
    Traces.DeliveredIsLegal(setup, events);
    Traces.PrefixLegal(site.profile, ProtocolOf(seen), ProtocolOf(sent));
    PrefixCovered(seen, sent);
  }

  lemma PrefixCovered(shorter: seq<Record>, longer: seq<Record>)
    requires shorter <= longer && Delivery.Covered(longer)
    ensures Delivery.Covered(shorter)
  {
    assert forall i :: 0 <= i < |shorter| ==> shorter[i] == longer[i] && shorter[..i] == longer[..i];
  }

  /** Only the worker's stop ends the senders, and only the consumer ends itself. */
  lemma {:induction false} AliveIff(site: Site, steps: seq<Step>)
    ensures var channel := Run(site, steps).use.channel;
      && (channel.senderAlive <==> WorkerStopped !in steps)
      && (channel.consumerAlive <==> ConsumerDropped !in steps)
    decreases |steps|
  {
    if steps != [] {
      hide Next;
      var before := steps[..|steps| - 1];
      AliveIff(site, before);
      StepAlive(site, Run(site, before), steps[|steps| - 1]);
      assert steps == before + [steps[|steps| - 1]];
    }
  }

  lemma StepAlive(site: Site, fleet: Fleet, step: Step)
    ensures var before, after := fleet.use.channel, Next(site, fleet, step).use.channel;
      && (after.senderAlive <==> before.senderAlive && step != WorkerStopped)
      && (after.consumerAlive <==> before.consumerAlive && step != ConsumerDropped)
  {
    hide Connection.Run;
  }

  /** So disconnection is told exactly when the worker stopped and everything accepted was taken. */
  lemma {:induction false} DisconnectionIff(site: Site, steps: seq<Step>)
    requires ConsumerDropped !in steps
    ensures var use := Run(site, steps).use;
      Handoff.Remove(use.channel).1.NoSender? <==> WorkerStopped in steps && use.received == use.accepted
  {
    hide Run, Connection.Run;
    AliveIff(site, steps);
    RunFaithful(site, steps);
  }

  /** A consumer that reads until no sender is left has, of each connection, everything its task handed over. */
  lemma {:induction false} ConsumerSeesAll(site: Site, steps: seq<Step>, id: ConnectionId)
    requires id in Run(site, steps).events
    requires var channel := Run(site, steps).use.channel; channel.consumerAlive && Handoff.Remove(channel).1.NoSender?
    ensures var fleet := Run(site, steps); Seen(fleet, id) == site.TaskOf(fleet.events[id], id).sent
  {
    hide Run, Connection.Run, Handoff.Kept, Handoff.Remove;
    RunFaithful(site, steps);
    Handoff.KeptAll(Run(site, steps).use);
  }

  /** And of a connection its peer ended, that is exactly what the peer's stream means. */
  lemma {:induction false} ConsumerSeesMeaning(site: Site, steps: seq<Step>, id: ConnectionId, stream: seq<byte>)
    requires id in Run(site, steps).events && Delivery.Bound(site.SetupOf(id))
    requires var channel := Run(site, steps).use.channel; channel.consumerAlive && Handoff.Remove(channel).1.NoSender?
    requires var fleet := Run(site, steps);
      var task := site.TaskOf(fleet.events[id], id);
      Delivery.PeerSends(task, stream) && Delivery.EndedByPeer(task)
    ensures ProtocolOf(Seen(Run(site, steps), id)) == Whole(site.SetupOf(id), stream)
  {
    hide Run, Connection.Run, Whole, Delivery.PeerSends, Delivery.EndedByPeer;
    ConsumerSeesAll(site, steps, id);
    Delivery.CompleteDelivery(site.SetupOf(id), Run(site, steps).events[id], stream);
  }

  /** At every moment, what the consumer has of a connection can be recorded exactly if its audio fits a WAVE file. */
  lemma {:induction false} ConsumerCanRecord(site: Site, steps: seq<Step>, id: ConnectionId, rate: SampleRate)
    requires id in Run(site, steps).events && Delivery.Bound(site.SetupOf(id))
    requires Pipeline.ExactRate(site.SetupOf(id), rate)
    ensures var seen := Seen(Run(site, steps), id);
      Rules.Replay(id, rate, seen).Ok? <==> |Rules.AudioOf(seen)| + Rules.RIFF_OVERHEAD <= Rules.U32_MAX
  {
    hide Run, Connection.Run, Rules.Replay, Pipeline.Coupled;
    var fleet := Run(site, steps);
    var seen, sent := Seen(fleet, id), site.TaskOf(fleet.events[id], id).sent;
    SeenIsPrefix(site, steps, id);
    Pipeline.ProducerMeetsConsumer(site.SetupOf(id), rate, fleet.events[id]);
    if Rules.Replay(id, rate, seen).Err? {
      Rules.RefusalStands(id, rate, seen, sent);
    }
    Rules.SizeIsAudio(id, rate, seen);
  }
}
