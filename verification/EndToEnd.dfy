/** Every call that fits its limits can be recorded whole, from its peer's first byte to its files. */
module EndToEnd {
  import opened Wire
  import opened Records
  import opened Meaning
  import opened RecorderRules
  import opened Capture
  import opened Captured
  import CaptureOutcome
  import Completion
  import Connection
  import Delivery
  import EndOnce
  import Fleet
  import FleetProgress
  import Pipeline
  import Session

  lemma {:induction false} HeardAtMost(config: Config, steps: seq<Step>)
    ensures |Heard(config, steps)| <= |steps|
    decreases |steps|
  {
    if steps != [] {
      HeardAtMost(config, steps[..|steps| - 1]);
    }
  }

  /** The last step of a capture that heard a record at every step. */
  lemma LastHeard(config: Config, steps: seq<Step>)
    requires steps != [] && |Heard(config, steps)| == |steps|
    ensures var before, last := steps[..|steps| - 1], steps[|steps| - 1];
      && last.Received? && Possible(config, Run(config, before), last)
      && Heard(config, steps) == Heard(config, before) + [last.record] && |Heard(config, before)| == |before|
  {
    HeardAtMost(config, steps[..|steps| - 1]);
  }

  lemma JointMore(site: Fleet.Site, config: Config, steps: seq<JointStep>, step: JointStep)
    ensures JointRun(site, config, steps + [step]) == JointNext(site, config, JointRun(site, config, steps), step)
  {
    assert (steps + [step])[..|steps|] == steps;
  }

  /** Both sides of a joint run: the receiver is in the state of `receiver`, and the capture took `capture`. */
  predicate Together(site: Fleet.Site, config: Config, joint: Joint, receiver: seq<Fleet.Step>, capture: seq<Step>) {
    Fleet.Run(site, joint.receiver) == Fleet.Run(site, receiver) && joint.capture == capture
  }

  /** A receiver whose records a capture can hear can run together with that capture. */
  lemma {:induction false} RunTogether(site: Fleet.Site, config: Config, receiver: seq<Fleet.Step>,
                                       capture: seq<Step>)
    returns (steps: seq<JointStep>)
    requires Heard(config, capture) == Fleet.Run(site, receiver).use.received && |Heard(config, capture)| == |capture|
    ensures Together(site, config, JointRun(site, config, steps), receiver, capture)
    decreases |receiver|
  {
    hide *;
    if receiver == [] {
      NoneTogether(site, config, capture);
      return [];
    }
    var before, step := receiver[..|receiver| - 1], receiver[|receiver| - 1];
    assert receiver == before + [step];
    var use := Fleet.Run(site, before).use;
    TakenOrNot(site, config, before, step, capture);
    if step.Taken? && use.channel.consumerAlive && use.channel.queue != [] {
      var shorter, last := capture[..|capture| - 1], capture[|capture| - 1];
      var played := RunTogether(site, config, before, shorter);
      TakenTogether(site, config, JointRun(site, config, played), before, shorter, last);
      JointMore(site, config, played, Deliver(last.outside));
      assert capture == shorter + [last];
      steps := played + [Deliver(last.outside)];
    } else {
      steps := RunTogether(site, config, before, capture);
      if step.Taken? {
        NothingToTake(site, before);
        SameTogether(site, config, JointRun(site, config, steps), before, receiver, capture);
      } else {
        OwnTogether(site, config, JointRun(site, config, steps), before, capture, step);
        JointMore(site, config, steps, OfReceiver(step));
        steps := steps + [OfReceiver(step)];
      }
    }
  }

  lemma NoneTogether(site: Fleet.Site, config: Config, capture: seq<Step>)
    requires Heard(config, capture) == Fleet.Run(site, []).use.received && |Heard(config, capture)| == |capture|
    ensures Together(site, config, JointRun(site, config, []), [], capture)
  {
    hide Heard;
  }

  /** The last record that the consumer took is the last that the capture heard. */
  lemma TakenOrNot(site: Fleet.Site, config: Config, before: seq<Fleet.Step>, step: Fleet.Step, capture: seq<Step>)
    requires Heard(config, capture) == Fleet.Run(site, before + [step]).use.received
    requires |Heard(config, capture)| == |capture|
    ensures var use := Fleet.Run(site, before).use;
      if step.Taken? && use.channel.consumerAlive && use.channel.queue != [] then
        capture != []
        && var shorter, last := capture[..|capture| - 1], capture[|capture| - 1];
           && last.Received? && last.record == use.channel.queue[0] && Possible(config, Run(config, shorter), last)
           && Heard(config, shorter) == use.received && |Heard(config, shorter)| == |shorter|
      else Heard(config, capture) == use.received
  {
    hide Fleet.Run, Run, Heard, Possible;
    ReceiverMore(site, before, step);
    var use := Fleet.Run(site, before).use;
    if step.Taken? && use.channel.consumerAlive && use.channel.queue != [] {
      LastHeard(config, capture);
      SameEnds(Heard(config, capture[..|capture| - 1]), capture[|capture| - 1].record,
               use.received, use.channel.queue[0]);
    }
  }

  lemma SameEnds(left: seq<Record>, last: Record, right: seq<Record>, end: Record)
    requires left + [last] == right + [end]
    ensures left == right && last == end
  {
    assert (left + [last])[..|left|] == left && (right + [end])[..|right|] == right;
    assert (left + [last])[|left|] == last && (right + [end])[|right|] == end;
  }

  lemma FleetMore(site: Fleet.Site, steps: seq<Fleet.Step>, step: Fleet.Step)
    ensures Fleet.Run(site, steps + [step]) == Fleet.Next(site, Fleet.Run(site, steps), step)
  {
    assert (steps + [step])[..|steps|] == steps;
  }

  lemma NothingToTake(site: Fleet.Site, steps: seq<Fleet.Step>)
    requires var channel := Fleet.Run(site, steps).use.channel; channel.queue == [] || !channel.consumerAlive
    ensures Fleet.Run(site, steps + [Fleet.Taken]) == Fleet.Run(site, steps)
  {
    FleetMore(site, steps, Fleet.Taken);
    hide Fleet.Run, Fleet.Poll;
  }

  lemma SameTogether(site: Fleet.Site, config: Config, joint: Joint, before: seq<Fleet.Step>,
                     after: seq<Fleet.Step>, capture: seq<Step>)
    requires Together(site, config, joint, before, capture) && Fleet.Run(site, before) == Fleet.Run(site, after)
    ensures Together(site, config, joint, after, capture)
  {
    hide Fleet.Run;
  }

  lemma OwnTogether(site: Fleet.Site, config: Config, joint: Joint, before: seq<Fleet.Step>, capture: seq<Step>,
                    step: Fleet.Step)
    requires Together(site, config, joint, before, capture) && !step.Taken?
    ensures Together(site, config, JointNext(site, config, joint, OfReceiver(step)), before + [step], capture)
  {
    FleetMore(site, before, step);
    FleetMore(site, joint.receiver, step);
    hide Fleet.Run, Fleet.Next;
  }

  lemma TakenTogether(site: Fleet.Site, config: Config, joint: Joint, before: seq<Fleet.Step>, capture: seq<Step>,
                      last: Step)
    requires Together(site, config, joint, before, capture)
    requires var channel := Fleet.Run(site, before).use.channel;
      && channel.consumerAlive && channel.queue != [] && last.Received? && last.record == channel.queue[0]
      && Possible(config, Run(config, capture), last)
    ensures Together(site, config, JointNext(site, config, joint, Deliver(last.outside)),
                     before + [Fleet.Taken], capture + [last])
  {
    FleetMore(site, before, Fleet.Taken);
    FleetMore(site, joint.receiver, Fleet.Taken);
    hide Fleet.Run, Fleet.Next, Run, Possible;
  }

  // One call, alone at a receiver.

  /** A call within the limits of receiver and capture: it ends well, and its bytes and its audio fit their files. */
  predicate Within(site: Fleet.Site, config: Config, setup: Setup, chunks: seq<seq<byte>>) {
    && Completion.Chunked(chunks) && 2 + |Flatten(chunks)| + |chunks| <= U64_MAX && site.channelCapacity > 0
    && config.run > 0 && config.active > 0
    && EndsWell(Whole(setup, Flatten(chunks)))
    && |Flatten(chunks)| <= config.file
    && var audio := |AudioOf(Whole(setup, Flatten(chunks)))|;
       audio + RIFF_OVERHEAD <= U32_MAX && WAVE_HEADER_BYTES + audio <= config.file
  }

  predicate EndsWell(records: seq<Record>) {
    && records != [] && records[|records| - 1].kind.Ended?
    && (records[|records| - 1].kind.reason == CleanEof || records[|records| - 1].kind.reason == Terminated)
  }

  /** Records of which no other connection has any are those of one connection. */
  lemma {:induction false} OnlyOne(records: seq<Record>, id: ConnectionId)
    requires forall other :: other != id ==> Of(records, other) == []
    ensures Of(records, id) == records
    decreases |records|
  {
    if records != [] {
      var before, last := records[..|records| - 1], records[|records| - 1];
      assert last.connection == id by {
        assert last.connection != id ==> Of(records, last.connection) != [];
      }
      forall other | other != id ensures Of(before, other) == [] {
        assert Of(records, other) == [];
      }
      OnlyOne(before, id);
    }
  }

  /** The records of a task whose told protocol ends well end well. */
  lemma SentEndsWell(setup: Setup, events: seq<Connection.Event>)
    requires Delivery.Bound(setup) && EndsWell(ProtocolOf(Connection.Run(setup, events).sent))
    ensures var sent := Connection.Run(setup, events).sent;
      EndsWell(sent) && sent[|sent| - 1] == ProtocolOf(sent)[|ProtocolOf(sent)| - 1]
  {
    hide Connection.Run;
    var sent := Connection.Run(setup, events).sent;
    EndOnce.BoundEndsOnce(setup, events);
    Delivery.LastTold(sent);
    var told := ProtocolOf(sent);
    var end := told[|told| - 1];
    assert end in told && end in sent;
    assert sent[|sent| - 1].kind.Ended?;
    assert told == ProtocolOf(sent[..|sent| - 1]) + [sent[|sent| - 1]];
  }

  /** What one task told can be recorded. */
  lemma SentRecordable(site: Fleet.Site, config: Config, id: ConnectionId, events: seq<Connection.Event>,
                       chunks: seq<seq<byte>>)
    requires site.profile == Session.PCM_8_KHZ && Delivery.Bound(site.SetupOf(id))
    requires Within(site, config, site.SetupOf(id), chunks)
    requires var task := site.TaskOf(events, id);
      FleetProgress.ToldFor(task, Flatten(chunks)) && ProtocolOf(task.sent) == Whole(site.SetupOf(id), Flatten(chunks))
    ensures CaptureOutcome.Recordable(config, id, site.TaskOf(events, id).sent)
  {
    hide Connection.Run, Whole, RawBytes, AudioOf, Replay, Flatten, ReadAll;
    var setup, sent := site.SetupOf(id), site.TaskOf(events, id).sent;
    SentEndsWell(setup, events);
    Pipeline.AudioIsProtocol(sent);
    ProfileRate(setup);
    Pipeline.ProducerMeetsConsumer(setup, RATE, events);
    Delivery.DeliveredIsPrefix(setup, events, []);
    CaptureOutcome.EmptyHeaderFits();
    hide EmptyHeader;
  }

  lemma ProfileRate(setup: Setup)
    requires setup.profile == Session.PCM_8_KHZ
    ensures Pipeline.ExactRate(setup, RATE)
  {
    forall rate ensures setup.profile.Accepts(rate) <==> rate == RATE {
      Session.NamedProfiles(rate);
    }
  }

  /** A receiver of one call that a consumer heard to its end. */
  ghost predicate HeardWhole(site: Fleet.Site, receiver: seq<Fleet.Step>, id: ConnectionId, stream: seq<byte>) {
    var fleet := Fleet.Run(site, receiver);
    && id in fleet.events
    && var task := site.TaskOf(fleet.events[id], id);
       && fleet.use.received == task.sent && FleetProgress.ToldFor(task, stream)
       && ProtocolOf(task.sent) == Whole(site.SetupOf(id), stream)
  }

  lemma HearWhole(site: Fleet.Site, id: ConnectionId, chunks: seq<seq<byte>>) returns (receiver: seq<Fleet.Step>)
    requires Delivery.Bound(site.SetupOf(id)) && site.channelCapacity > 0
    requires Completion.Chunked(chunks) && 2 + |Flatten(chunks)| + |chunks| <= U64_MAX
    ensures HeardWhole(site, receiver, id, Flatten(chunks))
  {
    FreshFleet(site, id);
    hide Fleet.Run, Connection.Run, Whole, Flatten, FleetProgress.ToldFor, ProtocolOf;
    FleetProgress.NewPeerReaches(site, [], id, chunks);
    var joined: seq<Fleet.Step> := [Fleet.Admitted(id)];
    assert [] + joined == joined;
    var more: seq<Fleet.Step> :| FleetProgress.Reached(site, Fleet.Run(site, [] + joined),
                                                       Fleet.Run(site, [] + (joined + more)), id, Flatten(chunks));
    receiver := joined + more;
    assert [] + receiver == receiver;
    AloneReceived(site, receiver, id);
  }

  lemma FreshFleet(site: Fleet.Site, id: ConnectionId)
    requires site.channelCapacity > 0
    ensures FleetProgress.Open(Fleet.Run(site, [])) && id !in Fleet.Run(site, []).events
    ensures Fleet.Run(site, [Fleet.Admitted(id)]).events.Keys == {id}
  {
    FleetMore(site, [], Fleet.Admitted(id));
    assert [] + [Fleet.Admitted(id)] == [Fleet.Admitted(id)];
  }

  /** With one connection alone, the consumer has what it saw of that connection and nothing else. */
  lemma AloneReceived(site: Fleet.Site, receiver: seq<Fleet.Step>, id: ConnectionId)
    requires Fleet.Run(site, receiver).events.Keys == {id}
    ensures Fleet.Seen(Fleet.Run(site, receiver), id) == Fleet.Run(site, receiver).use.received
  {
    hide Fleet.Run, Connection.Run, Of;
    Fleet.RunFaithful(site, receiver);
    var use := Fleet.Run(site, receiver).use;
    forall other | other != id ensures Of(use.received, other) == [] {
      PrefixOf(use.received, use.accepted, other);
      assert other !in Fleet.Run(site, receiver).events.Keys;
    }
    OnlyOne(use.received, id);
  }

  /** The call's directory holds its raw bytes, all of them if the peer just closed, and the audio that they mean. */
  ghost predicate RecordedWhole(site: Fleet.Site, config: Config, joint: Joint, id: ConnectionId, stream: seq<byte>) {
    var state, whole := Run(config, joint.capture), Whole(site.SetupOf(id), stream);
    && !state.bad && state.entries == map[] && id in state.directories && EndsWell(whole)
    && var files, audio := state.directories[id].files, AudioOf(whole);
       && files.wire <= stream && (whole[|whole| - 1].kind.reason.CleanEof? ==> files.wire == stream)
       && WaveHeader(|audio|, RATE).Ok? && files.wave == WaveHeader(|audio|, RATE).value + audio
  }

  lemma FinishedWhole(site: Fleet.Site, config: Config, steps: seq<JointStep>, receiver: seq<Fleet.Step>,
                      capture: seq<Step>, id: ConnectionId, stream: seq<byte>)
    requires site.profile == Session.PCM_8_KHZ && Delivery.Bound(site.SetupOf(id))
    requires HeardWhole(site, receiver, id, stream) && EndsWell(Whole(site.SetupOf(id), stream))
    requires CaptureOutcome.Succeeds(config, capture, id, Fleet.Run(site, receiver).use.received)
    requires Together(site, config, JointRun(site, config, steps), receiver, capture)
    ensures RecordedWhole(site, config, JointRun(site, config, steps), id, stream)
  {
    hide Fleet.Run, Connection.Run, Whole, RawBytes, AudioOf, WaveHeader, JointRun, Run, Heard, ProtocolOf;
    hide CaptureOutcome.FinalOf, Delivery.PeerSends, Delivery.EndedByPeer;
    PeerToFile(site, config, steps, id, stream);
    SentEndsWell(site.SetupOf(id), Fleet.Run(site, receiver).events[id]);
  }

  /**
   * Every call within the limits can be recorded whole: there is a joint run of receiver and capture that ends good
   * with the call's directory, whose files are what the call's stream means.
   */
  lemma {:induction false} CallCanBeRecorded(site: Fleet.Site, config: Config, id: ConnectionId,
                                             chunks: seq<seq<byte>>)
    requires site.profile == Session.PCM_8_KHZ && Delivery.Bound(site.SetupOf(id))
    requires Within(site, config, site.SetupOf(id), chunks)
    ensures exists steps: seq<JointStep> ::
      RecordedWhole(site, config, JointRun(site, config, steps), id, Flatten(chunks))
  {
    hide Fleet.Run, Connection.Run, Whole, RawBytes, AudioOf, JointRun, Run, Heard, ProtocolOf, Flatten, Replay;
    hide CaptureOutcome.FinalOf, FleetProgress.ToldFor, RecordedWhole, Together;
    var receiver := HearWhole(site, id, chunks);
    var sent := Fleet.Run(site, receiver).use.received;
    SentRecordable(site, config, id, Fleet.Run(site, receiver).events[id], chunks);
    CaptureOutcome.CanSucceed(config, id, sent);
    var capture: seq<Step> :| CaptureOutcome.Succeeds(config, capture, id, sent);
    var steps := RunTogether(site, config, receiver, capture);
    FinishedWhole(site, config, steps, receiver, capture, id, Flatten(chunks));
  }
}
