/** What a successful capture leaves on disk, from the peers' streams to the files. */
module Captured {
  import opened Wire
  import opened Records
  import opened Meaning
  import opened RecorderRules
  import opened Capture
  import Connection
  import Delivery
  import Fleet
  import Pipeline
  import Session

  /** The records that a capture received. */
  function Heard(config: Config, steps: seq<Step>): seq<Record> {
    if steps == [] then []
    else
      var before, last := steps[..|steps| - 1], steps[|steps| - 1];
      Heard(config, before)
        + if last.Received? && Possible(config, Run(config, before), last) then [last.record] else []
  }

  /** The receiver admits a connection once, first. */
  predicate AdmittedOnce(records: seq<Record>) {
    forall i :: 0 < i < |records| ==> !records[i].kind.Connected?
  }

  /** The files hold the raw bytes and the audio of `records` behind a header for `audioBytes`. */
  predicate Holds(files: Outputs, records: seq<Record>, audioBytes: nat) {
    && files.wire == RawBytes(records)
    && WaveHeader(audioBytes, RATE).Ok?
    && files.wave == WaveHeader(audioBytes, RATE).value + AudioOf(records)
  }

  /** A finished recording: accepted to a successful end, with sizes patched for its own audio. */
  predicate Complete(id: ConnectionId, files: Outputs, records: seq<Record>) {
    && Replay(id, RATE, records).Ok?
    && records != [] && records[|records| - 1].kind.Ended?
    && SuccessfulTerminal(records[|records| - 1].kind.reason)
    && Holds(files, records, |AudioOf(records)|)
  }

  /** While a run is good, the directory of a connection holds exactly what was received of it. */
  predicate Logged(state: CaptureState, id: ConnectionId, records: seq<Record>) {
    state.bad
    || if id !in state.directories then records == [] || state.stopping
       else if id !in state.entries then Complete(id, state.directories[id].files, records)
       else
         && records != [] && state.entries[id].Active?
         && Replay(id, RATE, records) == Ok(state.entries[id].memory)
         && Holds(state.directories[id].files, records, 0)
  }

  /** A step that concerns another connection, or none. */
  lemma OtherLogged(config: Config, state: CaptureState, step: Step, id: ConnectionId, records: seq<Record>)
    requires Logged(state, id, records) && Possible(config, state, step)
    requires step.Received? ==> step.record.connection != id
    ensures Logged(Effect(config, state, step), id, records)
  {
    hide Complete, Holds, Replay, Possible, Remember, Summarized, Admit, Continue, Summarize;
    if state.bad {
      BadStays(config, state, step);
    } else if step.Received? {
      if step.record.kind.Connected? {
        AdmitOther(config, state, step.record, step.outside, id);
      } else if Recording(state, step.record.connection) {
        ContinueOther(config, state, step.record, step.outside, id);
      }
    } else if step.Finalize? && Owned(state, step.id) {
      FinalizeSpoils(config, state, step.id, step.outside);
    }
  }

  /** Nothing of connection `id` changes, unless the run is spoiled. */
  predicate Untouched(before: CaptureState, after: CaptureState, id: ConnectionId) {
    after.bad
    || (&& (id in after.directories <==> id in before.directories)
        && (id in before.directories ==> after.directories[id] == before.directories[id])
        && (id in after.entries <==> id in before.entries)
        && (id in before.entries ==> after.entries[id] == before.entries[id])
        && (before.stopping ==> after.stopping))
  }

  lemma AdmitOther(config: Config, state: CaptureState, record: Record, outside: Outside, id: ConnectionId)
    requires record.connection != id
    ensures Untouched(state, Admit(config, state, record, outside), id)
  {
    hide Remember;
  }

  lemma ContinueOther(config: Config, state: CaptureState, record: Record, outside: Outside, id: ConnectionId)
    requires record.connection != id && Recording(state, record.connection)
    ensures Untouched(state, Continue(config, state, record, outside), id)
  {
    hide Remember, Summarized;
  }

  lemma FinalizeSpoils(config: Config, state: CaptureState, id: ConnectionId, outside: Outside)
    requires Owned(state, id)
    ensures Effect(config, state, Finalize(id, outside)).bad
  {
    hide Summarized;
  }

  /** A recorder that was created and took its first record. */
  lemma OpensHolds(record: Record, outside: Outside)
    requires outside.recorded && Opens(record, outside)
    ensures Replay(record.connection, RATE, [record]) == Ok(Remember(record.connection, FRESH, record))
    ensures Holds(outside.files, [record], 0)
  {
    ReplayStep(record.connection, RATE, [], FRESH, record);
    Records.Appended([], record);
    AudioAppended([], record);
    assert [] + [record] == [record];
    HeaderFits();
    hide WaveHeader, Validate, Accept, RawBytes, AudioOf;
  }

  lemma AdmitLogged(config: Config, state: CaptureState, record: Record, outside: Outside)
    requires Logged(state, record.connection, []) && record.kind.Connected?
    requires Possible(config, state, Received(record, outside))
    ensures Logged(Effect(config, state, Received(record, outside)), record.connection, [record])
  {
    hide Replay, Remember, Opens, Holds;
    if outside.recorded {
      OpensHolds(record, outside);
    }
    assert record.connection !in state.directories || state.bad;
  }

  lemma HeaderFits()
    ensures WaveHeader(0, RATE).Ok? && |WaveHeader(0, RATE).value| == WAVE_HEADER_BYTES
    ensures RawBytes([]) == [] && AudioOf([]) == [] && Replay(ConnectionId(0, 0), RATE, []) == Ok(FRESH)
  {
    HeaderReadsBack([], RATE);
  }

  /** A record that an active recorder accepted, and all that it leaves in the files. */
  lemma ContinueLogged(config: Config, state: CaptureState, record: Record, outside: Outside, records: seq<Record>)
    requires Logged(state, record.connection, records) && !record.kind.Connected?
    requires Recording(state, record.connection) && !state.bad
    requires Possible(config, state, Received(record, outside))
    ensures Logged(Continue(config, state, record, outside), record.connection, records + [record])
  {
    var id := record.connection;
    var memory, files := state.entries[id].memory, state.directories[id].files;
    ReplayStep(id, RATE, records, memory, record);
    Records.Appended(records, record);
    hide WaveHeader, Validate, Accept, Replay, RawBytes, AudioOf;
    if outside.recorded {
      KeptHolds(id, memory, files, record, outside, records);
      if record.kind.Ended? && outside.finished {
        FinalHolds(outside.files, outside.final, records + [record]);
      }
    }
  }

  lemma KeptHolds(id: ConnectionId, memory: Memory, files: Outputs, record: Record,
                  outside: Outside, records: seq<Record>)
    requires Holds(files, records, 0) && outside.recorded
    requires Preserves(id, RATE, memory, files, record, outside.description, true, outside.files)
    ensures Validate(id, RATE, memory, record).Ok? && Holds(outside.files, records + [record], 0)
  {
    Records.Appended(records, record);
    AudioAppended(records, record);
    hide WaveHeader, Validate, RawBytes, AudioOf;
    var header := WaveHeader(0, RATE).value;
    assert (header + AudioOf(records)) + AudioPart(record) == header + (AudioOf(records) + AudioPart(record));
  }

  lemma AudioAppended(records: seq<Record>, record: Record)
    ensures AudioOf(records + [record]) == AudioOf(records) + AudioPart(record)
  {
    assert (records + [record])[..|records|] == records;
  }

  lemma FinalHolds(files: Outputs, final: Outputs, records: seq<Record>)
    requires Holds(files, records, 0) && Finalizes(RATE, files, true, final)
    ensures Holds(final, records, |AudioOf(records)|)
  {
    HeaderFits();
    hide WaveHeader, RawBytes, AudioOf;
    assert files.wave[WAVE_HEADER_BYTES..] == AudioOf(records);
  }

  lemma ReceivedLogged(config: Config, state: CaptureState, record: Record, outside: Outside, records: seq<Record>)
    requires Tidy(config, state) && Logged(state, record.connection, records)
    requires AdmittedOnce(records + [record]) && Possible(config, state, Received(record, outside))
    ensures Logged(Effect(config, state, Received(record, outside)), record.connection, records + [record])
  {
    var id := record.connection;
    if state.bad {
      BadStays(config, state, Received(record, outside));
    } else if record.kind.Connected? {
      assert (records + [record])[|records|] == record;
      assert records == [] && [] + [record] == [record];
      AdmitLogged(config, state, record, outside);
    } else if Recording(state, id) {
      hide Continue, Possible, Tidy;
      ContinueLogged(config, state, record, outside, records);
    } else {
      hide Possible, Complete, Holds, Replay;
      TidyOwned(config, state, id);
    }
  }

  lemma BadStays(config: Config, state: CaptureState, step: Step)
    requires state.bad
    ensures Effect(config, state, step).bad
  {
    hide Remember, Summarized;
  }

  lemma TidyOwned(config: Config, state: CaptureState, id: ConnectionId)
    requires Tidy(config, state) && !state.bad
    ensures id in state.entries ==> Recording(state, id)
  {
    if id in state.entries {
      assert id in state.entries.Keys && id in state.directories.Keys;
      assert TidyAt(config, state, id);
    }
  }

  /** What a step adds to the records of one connection. */
  function Added(config: Config, state: CaptureState, step: Step, id: ConnectionId): seq<Record> {
    if step.Received? && Possible(config, state, step) && step.record.connection == id then [step.record] else []
  }

  lemma StepLogged(config: Config, state: CaptureState, step: Step, id: ConnectionId, records: seq<Record>)
    requires Tidy(config, state) && Logged(state, id, records)
    requires AdmittedOnce(records + Added(config, state, step, id))
    ensures Logged(Next(config, state, step), id, records + Added(config, state, step, id))
  {
    hide Logged, Tidy, Possible, Effect, AdmittedOnce;
    if Added(config, state, step, id) == [] {
      assert records + [] == records;
      if Possible(config, state, step) {
        OtherLogged(config, state, step, id, records);
      }
    } else {
      ReceivedLogged(config, state, step.record, step.outside, records);
    }
  }

  lemma {:induction false} HeardMore(config: Config, steps: seq<Step>, id: ConnectionId)
    requires steps != []
    ensures var before, last := steps[..|steps| - 1], steps[|steps| - 1];
      Of(Heard(config, steps), id) == Of(Heard(config, before), id) + Added(config, Run(config, before), last, id)
  {
    hide Possible, Run, Of;
    var before, last := steps[..|steps| - 1], steps[|steps| - 1];
    var heard := Heard(config, before);
    if last.Received? && Possible(config, Run(config, before), last) {
      OfMore(heard, last.record, id);
    } else {
      assert heard + [] == heard && Of(heard, id) + [] == Of(heard, id);
    }
  }

  lemma {:induction false} RunLogged(config: Config, steps: seq<Step>, id: ConnectionId)
    requires AdmittedOnce(Of(Heard(config, steps), id))
    ensures Logged(Run(config, steps), id, Of(Heard(config, steps), id))
    decreases |steps|
  {
    hide Logged, Tidy, Added, Next, Of, Heard, AdmittedOnce;
    if steps == [] {
      NothingHeard(config, id);
    } else {
      var before, last := steps[..|steps| - 1], steps[|steps| - 1];
      var state, records := Run(config, before), Of(Heard(config, before), id);
      HeardMore(config, steps, id);
      FewerAdmitted(records, Added(config, state, last, id));
      RunLogged(config, before, id);
      RunTidy(config, before);
      StepLogged(config, state, last, id, records);
    }
  }

  lemma NothingHeard(config: Config, id: ConnectionId)
    ensures Logged(Run(config, []), id, Of(Heard(config, []), id))
  {
  }

  lemma FewerAdmitted(records: seq<Record>, more: seq<Record>)
    requires AdmittedOnce(records + more)
    ensures AdmittedOnce(records)
  {
    assert forall i :: 0 <= i < |records| ==> (records + more)[i] == records[i];
  }

  /** A drained run that did not fail left, for each directory, a complete recording of what was received. */
  lemma {:induction false} GoodRunIsComplete(config: Config, steps: seq<Step>, id: ConnectionId)
    requires Run(config, steps).entries == map[] && !Run(config, steps).bad
    requires id in Run(config, steps).directories && AdmittedOnce(Of(Heard(config, steps), id))
    ensures Complete(id, Run(config, steps).directories[id].files, Of(Heard(config, steps), id))
  {
    hide Run, Heard, Complete, Of;
    RunLogged(config, steps, id);
  }

  /** Over any receiver whose consumer the capture is. */
  lemma {:induction false} FilesMean(site: Fleet.Site, receiver: seq<Fleet.Step>, config: Config, steps: seq<Step>,
                                     id: ConnectionId, stream: seq<byte>)
    requires Heard(config, steps) == Fleet.Run(site, receiver).use.received
    requires site.profile == Session.PCM_8_KHZ && Delivery.Bound(site.SetupOf(id))
    requires Run(config, steps).entries == map[] && !Run(config, steps).bad && id in Run(config, steps).directories
    requires id in Fleet.Run(site, receiver).events ==>
      Delivery.PeerSends(site.TaskOf(Fleet.Run(site, receiver).events[id], id), stream)
    ensures var fleet, files := Fleet.Run(site, receiver), Run(config, steps).directories[id].files;
      && id in fleet.events
      && var task := site.TaskOf(fleet.events[id], id);
         && files.wire == RawBytes(task.sent) <= stream
         && task.sent != [] && task.sent[|task.sent| - 1].kind.Ended?
         && (task.sent[|task.sent| - 1].kind.reason == CleanEof || task.sent[|task.sent| - 1].kind.reason == Terminated)
         && (task.sent[|task.sent| - 1].kind.reason.CleanEof? ==> files.wire == stream)
         && var audio := AudioOf(Whole(site.SetupOf(id), stream));
            WaveHeader(|audio|, RATE).Ok? && files.wave == WaveHeader(|audio|, RATE).value + audio
  {
    hide Fleet.Run, Run, Heard, Connection.Run, Complete, Of, Whole, ReadAll, RawBytes, AudioOf, WaveHeader, Replay,
      Delivery.PeerSends, Delivery.EndedByPeer, Delivery.Covered, Delivery.OutsideEnd, AdmittedOnce, EndIn;
    var fleet := Fleet.Run(site, receiver);
    var seen := Fleet.Seen(fleet, id);
    assert seen == Of(Heard(config, steps), id);
    Fleet.SeenIsPrefix(site, receiver, id);
    SeenAdmittedOnce(site, fleet, id);
    GoodRunIsComplete(config, steps, id);
    CompleteHolds(id, Run(config, steps).directories[id].files, seen);
    assert id in fleet.events;
    var setup, events := site.SetupOf(id), fleet.events[id];
    WholeTold(setup, events, seen, stream);
    AudioTold(setup, events, stream);
  }

  lemma SeenAdmittedOnce(site: Fleet.Site, fleet: Fleet.Fleet, id: ConnectionId)
    requires Delivery.Bound(site.SetupOf(id))
    requires Fleet.Seen(fleet, id) <= if id in fleet.events then site.TaskOf(fleet.events[id], id).sent else []
    ensures AdmittedOnce(Fleet.Seen(fleet, id))
  {
    hide Fleet.Seen, Connection.Run;
    if id in fleet.events {
      Delivery.RunConnectedFirst(site.SetupOf(id), fleet.events[id]);
    }
  }

  lemma CompleteHolds(id: ConnectionId, files: Outputs, records: seq<Record>)
    requires Complete(id, files, records)
    ensures records != [] && records[|records| - 1].kind.Ended?
    ensures SuccessfulTerminal(records[|records| - 1].kind.reason)
    ensures EndIn(records) == Some(records[|records| - 1].kind.reason)
    ensures Replay(id, RATE, records).Ok? && files.wire == RawBytes(records)
    ensures WaveHeader(|AudioOf(records)|, RATE).Ok?
    ensures files.wave == WaveHeader(|AudioOf(records)|, RATE).value + AudioOf(records)
  {
  }

  /** A connection of which a successful end was seen has been seen whole, and ended by its peer. */
  lemma {:induction false} WholeTold(setup: Setup, events: seq<Connection.Event>, seen: seq<Record>, stream: seq<byte>)
    requires Delivery.Bound(setup)
    requires seen != [] && seen <= Connection.Run(setup, events).sent
    requires seen[|seen| - 1].kind.Ended? && SuccessfulTerminal(seen[|seen| - 1].kind.reason)
    requires Delivery.PeerSends(Connection.Run(setup, events), stream)
    ensures var task := Connection.Run(setup, events);
      && seen == task.sent && Delivery.EndedByPeer(task)
      && RawBytes(task.sent) <= stream
      && (task.sent[|task.sent| - 1].kind.reason.CleanEof? ==> RawBytes(task.sent) == stream)
  {
    hide Connection.Run, Delivery.Tells, Delivery.Shape, Delivery.Counted, ReadAll, RawBytes, Delivery.EndsOutside;
    var task := Connection.Run(setup, events);
    Delivery.RunInv(setup, events);
    var last := |seen| - 1;
    assert task.sent[last] == seen[last] && last == |task.sent| - 1;
    Delivery.DeliveredIsPrefix(setup, events, []);
    if task.sent[last].kind.reason.CleanEof? {
      assert task.sent[last] in task.sent;
      assert task.observed == stream;
      EndCovers(setup, task);
    }
  }

  /** The raw bytes before a clean end are all that was read. */
  lemma EndCovers(setup: Setup, task: Connection.Task)
    requires task.sent != [] && task.sent[|task.sent| - 1].kind.Ended?
    requires task.sent[|task.sent| - 1].kind.reason.CleanEof?
    requires Delivery.Covered(task.sent) && Delivery.OutsideEnd(setup, task.observed, task.sent)
    requires RawBytes(task.sent) <= task.observed
    ensures RawBytes(task.sent) == task.observed
  {
    hide ReadAll;
    var last := task.sent[|task.sent| - 1];
    var told := ProtocolOf(task.sent);
    assert last.Protocol() && told[|told| - 1] == last;
  }

  lemma {:induction false} AudioTold(setup: Setup, events: seq<Connection.Event>, stream: seq<byte>)
    requires Delivery.Bound(setup)
    requires Delivery.PeerSends(Connection.Run(setup, events), stream)
    requires Delivery.EndedByPeer(Connection.Run(setup, events))
    ensures AudioOf(Connection.Run(setup, events).sent) == AudioOf(Whole(setup, stream))
  {
    hide Connection.Run, Whole, AudioOf, Delivery.PeerSends, Delivery.EndedByPeer;
    Delivery.CompleteDelivery(setup, events, stream);
    Pipeline.AudioIsProtocol(Connection.Run(setup, events).sent);
  }

  /** Receiver and capture together: a record leaves the channel by being received. */
  datatype JointStep = OfReceiver(own: Fleet.Step) | OfCapture(action: Step) | Deliver(outside: Outside)

  /** The steps that each side has taken. */
  datatype Joint = Joint(receiver: seq<Fleet.Step>, capture: seq<Step>)

  function JointNext(site: Fleet.Site, config: Config, joint: Joint, step: JointStep): Joint {
    match step
    case OfReceiver(own) => if own.Taken? then joint else joint.(receiver := joint.receiver + [own])
    case OfCapture(own) => if own.Received? then joint else joint.(capture := joint.capture + [own])
    case Deliver(outside) =>
      var channel := Fleet.Run(site, joint.receiver).use.channel;
      if channel.queue == [] || !channel.consumerAlive
         || !Possible(config, Run(config, joint.capture), Received(channel.queue[0], outside))
      then joint
      else Joint(joint.receiver + [Fleet.Taken], joint.capture + [Received(channel.queue[0], outside)])
  }

  function JointRun(site: Fleet.Site, config: Config, steps: seq<JointStep>): Joint {
    if steps == [] then Joint([], [])
    else JointNext(site, config, JointRun(site, config, steps[..|steps| - 1]), steps[|steps| - 1])
  }

  lemma {:induction false} ReceiverMore(site: Fleet.Site, receiver: seq<Fleet.Step>, step: Fleet.Step)
    ensures var use, next := Fleet.Run(site, receiver).use, Fleet.Run(site, receiver + [step]).use;
      next.received == if step.Taken? && use.channel.consumerAlive && use.channel.queue != [] then
                         use.received + [use.channel.queue[0]]
                       else use.received
  {
    assert (receiver + [step])[..|receiver|] == receiver;
    hide Fleet.Run, Connection.Run;
  }

  lemma {:induction false} CaptureMore(config: Config, capture: seq<Step>, step: Step)
    ensures Heard(config, capture + [step]) == Heard(config, capture)
      + if step.Received? && Possible(config, Run(config, capture), step) then [step.record] else []
  {
    assert (capture + [step])[..|capture|] == capture;
  }

  predicate HearsAll(site: Fleet.Site, config: Config, joint: Joint) {
    Heard(config, joint.capture) == Fleet.Run(site, joint.receiver).use.received
  }

  lemma StepHears(site: Fleet.Site, config: Config, joint: Joint, step: JointStep)
    requires HearsAll(site, config, joint)
    ensures HearsAll(site, config, JointNext(site, config, joint, step))
  {
    hide Fleet.Run, Run, Heard, Possible;
    match step
    case OfReceiver(own) => ReceiverMore(site, joint.receiver, own);
    case OfCapture(action) => CaptureMore(config, joint.capture, action);
    case Deliver(outside) =>
      var channel := Fleet.Run(site, joint.receiver).use.channel;
      if channel.queue != [] {
        ReceiverMore(site, joint.receiver, Fleet.Taken);
        CaptureMore(config, joint.capture, Received(channel.queue[0], outside));
      }
  }

  /** The capture hears exactly what it takes from the channel. */
  lemma {:induction false} JointHears(site: Fleet.Site, config: Config, steps: seq<JointStep>)
    ensures HearsAll(site, config, JointRun(site, config, steps))
    decreases |steps|
  {
    if steps == [] {
      NothingTaken(site, config);
    } else {
      hide HearsAll, JointNext;
      JointHears(site, config, steps[..|steps| - 1]);
      StepHears(site, config, JointRun(site, config, steps[..|steps| - 1]), steps[|steps| - 1]);
    }
  }

  lemma NothingTaken(site: Fleet.Site, config: Config)
    ensures HearsAll(site, config, Joint([], []))
  {
  }

  /**
   * From the peer's stream to the files: a capture that reports success over a receiver at its rate left, for
   * every directory and whatever the schedule of tasks, worker and consumer was, the whole told connection: the
   * raw bytes, which are all of a stream that ended cleanly, and a WAVE file of exactly the audio it means.
   */
  lemma {:induction false} PeerToFile(site: Fleet.Site, config: Config, steps: seq<JointStep>, id: ConnectionId,
                                      stream: seq<byte>)
    requires site.profile == Session.PCM_8_KHZ && Delivery.Bound(site.SetupOf(id))
    requires var state := Run(config, JointRun(site, config, steps).capture);
      state.entries == map[] && !state.bad && id in state.directories
    requires var fleet := Fleet.Run(site, JointRun(site, config, steps).receiver);
      id in fleet.events ==> Delivery.PeerSends(site.TaskOf(fleet.events[id], id), stream)
    ensures var joint := JointRun(site, config, steps);
      var fleet, files := Fleet.Run(site, joint.receiver), Run(config, joint.capture).directories[id].files;
      && id in fleet.events
      && var sent := site.TaskOf(fleet.events[id], id).sent;
         && files.wire == RawBytes(sent) <= stream
         && sent != [] && sent[|sent| - 1].kind.Ended?
         && (sent[|sent| - 1].kind.reason == CleanEof || sent[|sent| - 1].kind.reason == Terminated)
         && (sent[|sent| - 1].kind.reason.CleanEof? ==> files.wire == stream)
         && var audio := AudioOf(Whole(site.SetupOf(id), stream));
            WaveHeader(|audio|, RATE).Ok? && files.wave == WaveHeader(|audio|, RATE).value + audio
  {
    hide Fleet.Run, Run, Heard, JointRun, Connection.Run, Whole, RawBytes, AudioOf, WaveHeader, Delivery.PeerSends;
    var joint := JointRun(site, config, steps);
    JointHears(site, config, steps);
    FilesMean(site, joint.receiver, config, joint.capture, id, stream);
  }
}
