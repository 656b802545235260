/** From every reachable state of a receiver, every peer's whole stream can still reach the consumer. */
module FleetProgress {
  import opened Wire
  import opened Records
  import opened Meaning
  import opened Connection
  import F = Fleet
  import Completion
  import Delivery

  /** Both ends of the channel live, and a consumer that keeps up finds it empty. */
  predicate Open(fleet: F.Fleet) {
    fleet.use.channel.senderAlive && fleet.use.channel.consumerAlive && fleet.use.channel.capacity > 0
  }

  /** Everything but one connection and the channel stands still. */
  ghost predicate OthersStay(before: F.Fleet, after: F.Fleet, id: ConnectionId) {
    && after.events.Keys == before.events.Keys
    && forall other <- before.events :: other != id ==> after.events[other] == before.events[other]
  }

  lemma StepsOn(site: F.Site, steps: seq<F.Step>, more: seq<F.Step>, step: F.Step)
    ensures F.Run(site, steps + (more + [step])) == F.Next(site, F.Run(site, steps + more), step)
  {
    var all := steps + (more + [step]);
    assert all[..|all| - 1] == steps + more;
  }

  /** A consumer that takes without pause empties the channel. */
  lemma {:induction false} Drained(site: F.Site, steps: seq<F.Step>) returns (more: seq<F.Step>)
    requires Open(F.Run(site, steps))
    ensures var before, after := F.Run(site, steps), F.Run(site, steps + more);
      && Open(after) && after.use.channel.queue == [] && after.events == before.events
    decreases |F.Run(site, steps).use.channel.queue|
  {
    hide F.Run, F.Next, Open;
    if F.Run(site, steps).use.channel.queue == [] {
      assert steps + [] == steps;
      return [];
    }
    StepsOn(site, steps, [], F.Taken);
    assert steps + [] == steps && [] + [F.Taken] == [F.Taken];
    TakenOnce(site, F.Run(site, steps));
    var rest := Drained(site, steps + [F.Taken]);
    more := [F.Taken] + rest;
    assert steps + more == steps + [F.Taken] + rest;
  }

  lemma TakenOnce(site: F.Site, fleet: F.Fleet)
    requires Open(fleet) && fleet.use.channel.queue != []
    ensures var after := F.Next(site, fleet, F.Taken);
      && Open(after) && after.events == fleet.events && |after.use.channel.queue| < |fleet.use.channel.queue|
  {
    hide F.Poll;
  }

  /** One poll and one take have the effect of the poll alone on its task. */
  lemma PolledAndTaken(site: F.Site, fleet: F.Fleet, id: ConnectionId, event: Event)
    requires Open(fleet) && fleet.use.channel.queue == [] && id in fleet.events && !event.ConsumerGone?
    ensures var after := F.Next(site, F.Next(site, fleet, F.Polled(id, event)), F.Taken);
      && Open(after) && after.use.channel.queue == [] && OthersStay(fleet, after, id)
      && site.TaskOf(after.events[id], id)
         == Connection.Next(site.SetupOf(id), site.TaskOf(fleet.events[id], id), event)
  {
    RunMore(site.SetupOf(id), fleet.events[id], event);
    hide Connection.Run, FeedStep, TypedStep, Send, CopyDone, EndOfStream, ObserveRead;
  }

  /** So any schedule of one task can be played on the shared channel. */
  lemma {:induction false} Played(site: F.Site, steps: seq<F.Step>, id: ConnectionId, events: seq<Event>)
    returns (more: seq<F.Step>)
    requires var fleet := F.Run(site, steps);
      Open(fleet) && fleet.use.channel.queue == [] && id in fleet.events
    requires ConsumerGone !in events
    ensures var before, after := F.Run(site, steps), F.Run(site, steps + more);
      && Open(after) && after.use.channel.queue == [] && OthersStay(before, after, id)
      && site.TaskOf(after.events[id], id) == Connection.Run(site.SetupOf(id), before.events[id] + events)
    decreases |events|
  {
    hide Connection.Next, F.Next, Open;
    var setup, base := site.SetupOf(id), F.Run(site, steps).events[id];
    if events == [] {
      assert steps + [] == steps && base + [] == base;
      return [];
    }
    var before, event := events[..|events| - 1], events[|events| - 1];
    var played := Played(site, steps, id, before);
    PolledAndTaken(site, F.Run(site, steps + played), id, event);
    StepsOn(site, steps, played, F.Polled(id, event));
    StepsOn(site, steps, played + [F.Polled(id, event)], F.Taken);
    RunMore(setup, base + before, event);
    assert base + before + [event] == base + events;
    more := played + [F.Polled(id, event)] + [F.Taken];
  }

  /** A connection that runs and may still count what its peer will send. */
  predicate Runs(task: Task, chunks: seq<seq<byte>>) {
    && !task.pc.Done? && !Delivery.EndingOutside(task) && Completion.Chunked(chunks)
    && |task.observed| + |Flatten(chunks)| <= U64_MAX && Completion.Need(task, chunks) <= U64_MAX
  }

  /** A task that its peer ended after exactly `stream`. */
  ghost predicate ToldFor(task: Task, stream: seq<byte>) {
    Delivery.PeerSends(task, stream) && Delivery.EndedByPeer(task)
  }

  /** The consumer has everything that the stream of one connection means, and no other connection was disturbed. */
  ghost predicate Reached(site: F.Site, before: F.Fleet, after: F.Fleet, id: ConnectionId, stream: seq<byte>) {
    && OthersStay(before, after, id) && Open(after) && id in after.events
    && F.Seen(after, id) == site.TaskOf(after.events[id], id).sent
    && ProtocolOf(F.Seen(after, id)) == Whole(site.SetupOf(id), stream)
    && ToldFor(site.TaskOf(after.events[id], id), stream)
  }

  /**
   * No connection is ever stuck behind the others: in every reachable state with both ends alive, for everything that
   * the peer of a running connection may still send, the run can go on so that the consumer has all of it.
   */
  lemma {:induction false} PeerReachesConsumer(site: F.Site, steps: seq<F.Step>, id: ConnectionId,
                                               chunks: seq<seq<byte>>)
    requires Open(F.Run(site, steps)) && id in F.Run(site, steps).events && Delivery.Bound(site.SetupOf(id))
    requires Runs(site.TaskOf(F.Run(site, steps).events[id], id), chunks)
    ensures var fleet := F.Run(site, steps);
      exists more: seq<F.Step> ::
        Reached(site, fleet, F.Run(site, steps + more), id,
                site.TaskOf(fleet.events[id], id).observed + Flatten(chunks))
  {
    hide F.Run, Connection.Run, Whole, Completion.Need, Flatten, ToldFor;
    var fleet, setup := F.Run(site, steps), site.SetupOf(id);
    var stream := site.TaskOf(fleet.events[id], id).observed + Flatten(chunks);
    var events := Told(setup, fleet.events[id], chunks);
    var drained := Drained(site, steps);
    var played := Played(site, steps + drained, id, events);
    var more := drained + played;
    assert steps + drained + played == steps + more;
    EmptySeen(site, steps + more, id);
    assert Reached(site, fleet, F.Run(site, steps + more), id, stream);
  }

  lemma Told(setup: Setup, before: seq<Event>, chunks: seq<seq<byte>>) returns (events: seq<Event>)
    requires Delivery.Bound(setup) && Runs(Connection.Run(setup, before), chunks)
    ensures var stream, task := Connection.Run(setup, before).observed + Flatten(chunks),
                                Connection.Run(setup, before + events);
      ConsumerGone !in events && ToldFor(task, stream) && ProtocolOf(task.sent) == Whole(setup, stream)
  {
    hide Connection.Run, Whole, Completion.Need, Flatten, Delivery.EndedByPeer, Delivery.PeerSends;
    Completion.NeverStuck(setup, before, chunks);
    var stream := Connection.Run(setup, before).observed + Flatten(chunks);
    events :| var task := Connection.Run(setup, before + events);
      && task.pc.Done? && Delivery.PeerSends(task, stream) && Delivery.EndedByPeer(task)
      && ProtocolOf(task.sent) == Whole(setup, stream) && ConsumerGone !in events;
  }

  /** A consumer that finds the channel empty has everything that was handed over. */
  lemma EmptySeen(site: F.Site, steps: seq<F.Step>, id: ConnectionId)
    requires var fleet := F.Run(site, steps);
      id in fleet.events && fleet.use.channel.queue == [] && fleet.use.channel.consumerAlive
    ensures var fleet := F.Run(site, steps); F.Seen(fleet, id) == site.TaskOf(fleet.events[id], id).sent
  {
    F.RunFaithful(site, steps);
    hide F.Run, Connection.Run;
    var use := F.Run(site, steps).use;
    assert use.received + [] == use.received;
  }

  /** And every new peer can be heard to its end, whatever it sends and however it is cut. */
  lemma {:induction false} NewPeerReaches(site: F.Site, steps: seq<F.Step>, id: ConnectionId, chunks: seq<seq<byte>>)
    requires Open(F.Run(site, steps)) && id !in F.Run(site, steps).events && Delivery.Bound(site.SetupOf(id))
    requires Completion.Chunked(chunks) && 2 + |Flatten(chunks)| + |chunks| <= U64_MAX
    ensures exists more: seq<F.Step> ::
      Reached(site, F.Run(site, steps + [F.Admitted(id)]), F.Run(site, steps + ([F.Admitted(id)] + more)), id,
              Flatten(chunks))
  {
    hide *;
    var joined := steps + [F.Admitted(id)];
    Joins(site, steps, id, chunks);
    PeerReachesConsumer(site, joined, id, chunks);
    assert [] + Flatten(chunks) == Flatten(chunks);
    var more: seq<F.Step> :| Reached(site, F.Run(site, joined), F.Run(site, joined + more), id, Flatten(chunks));
    assert joined + more == steps + ([F.Admitted(id)] + more);
  }

  lemma StartRuns(setup: Setup, chunks: seq<seq<byte>>)
    requires Completion.Chunked(chunks) && 2 + |Flatten(chunks)| + |chunks| <= U64_MAX
    ensures Connection.Run(setup, []) == Start(setup)
    ensures Runs(Start(setup), chunks) && Start(setup).observed == []
  {
    hide Flatten, Completion.Chunked;
  }

  /** A new connection starts to run. */
  lemma Joins(site: F.Site, steps: seq<F.Step>, id: ConnectionId, chunks: seq<seq<byte>>)
    requires Open(F.Run(site, steps)) && id !in F.Run(site, steps).events
    requires Completion.Chunked(chunks) && 2 + |Flatten(chunks)| + |chunks| <= U64_MAX
    ensures var fleet := F.Run(site, steps + [F.Admitted(id)]);
      && Open(fleet) && id in fleet.events && Runs(site.TaskOf(fleet.events[id], id), chunks)
      && site.TaskOf(fleet.events[id], id).observed == []
  {
    hide F.Run, F.Poll, Connection.Run, Start, Runs, Flatten, Completion.Chunked;
    StepsOn(site, steps, [], F.Admitted(id));
    assert steps + [] == steps && [] + [F.Admitted(id)] == [F.Admitted(id)];
    StartRuns(site.SetupOf(id), chunks);
  }

  /** A worker that stopped runs no connection any more: each is over, and none is admitted. */
  lemma {:induction false} StopEndsAll(site: F.Site, steps: seq<F.Step>)
    requires F.WorkerStopped in steps
    ensures forall id <- F.Run(site, steps).events :: site.TaskOf(F.Run(site, steps).events[id], id).pc.Done?
    decreases |steps|
  {
    var before, step := steps[..|steps| - 1], steps[|steps| - 1];
    assert steps == before + [step];
    StepsOn(site, before, [], step);
    assert before + [] == before && [] + [step] == [step];
    hide F.Run, F.Poll, Connection.Run;
    if step.WorkerStopped? {
      forall id | id in F.Run(site, before).events
        ensures site.TaskOf(F.Run(site, before).events[id] + [Cancelled], id).pc.Done?
      {
        RunMore(site.SetupOf(id), F.Run(site, before).events[id], Cancelled);
      }
    } else {
      F.AliveIff(site, before);
      StopEndsAll(site, before);
    }
  }

  /** When the consumer is gone, the next handoff of each connection is its last step, and is told to nobody. */
  lemma NoConsumerEnds(site: F.Site, fleet: F.Fleet, id: ConnectionId, event: Event)
    requires fleet.use.channel.senderAlive && !fleet.use.channel.consumerAlive && id in fleet.events
    requires var task := site.TaskOf(fleet.events[id], id); task.pc.Sending? && task.recordsQueued != U64_MAX
    ensures var task, after := site.TaskOf(fleet.events[id], id), F.Next(site, fleet, F.Polled(id, Granted));
      && after.use == fleet.use && OthersStay(fleet, after, id)
      && site.TaskOf(after.events[id], id) == task.(pc := Done)
  {
    RunMore(site.SetupOf(id), fleet.events[id], ConsumerGone);
    hide Connection.Run;
  }

  /** A record that finds the channel full stays in the task's hand, and the first poll after a take hands it over. */
  lemma FullThenTaken(site: F.Site, fleet: F.Fleet, id: ConnectionId)
    requires Open(fleet) && id in fleet.events && |fleet.use.channel.queue| == fleet.use.channel.capacity
    requires var task := site.TaskOf(fleet.events[id], id); task.pc.Sending? && task.recordsQueued != U64_MAX
    ensures F.Next(site, fleet, F.Polled(id, Granted)) == fleet
    ensures var task := site.TaskOf(fleet.events[id], id);
      var after := F.Next(site, F.Next(site, fleet, F.Taken), F.Polled(id, Granted));
      && after.use.accepted == fleet.use.accepted + [task.pc.record]
      && after.use.received == fleet.use.received + [fleet.use.channel.queue[0]]
      && site.TaskOf(after.events[id], id).sent == task.sent + [task.pc.record]
  {
    RunMore(site.SetupOf(id), fleet.events[id], Granted);
    StepSends(site.SetupOf(id), site.TaskOf(fleet.events[id], id), Granted);
    hide Connection.Run, Connection.Next;
  }

  /** Each removal is announced to the worker once. */
  lemma {:induction false} RemovalsAnnounced(site: F.Site, steps: seq<F.Step>)
    ensures var before, after := F.Run(site, steps).use, F.Run(site, steps + [F.Announced]).use;
      && before.channel.credits + before.channel.unannounced == |before.received|
      && after.channel.credits
         == before.channel.credits + (if |before.received| == before.channel.credits then 0 else 1)
  {
    F.RunFaithful(site, steps);
    StepsOn(site, steps, [], F.Announced);
    assert steps + [] == steps && [] + [F.Announced] == [F.Announced];
    hide F.Run;
  }
}
