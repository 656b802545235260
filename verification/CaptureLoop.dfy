/** The capture loop over recorder objects and size-limited writers. */
module CaptureLoop {
  import opened Wire
  import opened Records
  import opened RecorderRules
  import opened Recording
  import opened Capture
  import Captured

  /** What the system makes of one record: the directory and files it may need, the writers' answers, the summary. */
  datatype Arrival = Arrival(
    record: Record,
    description: seq<byte>,
    directoryMade: bool,
    filesMade: bool,
    wireAnswers: seq<Answer>,
    waveAnswers: seq<Answer>,
    eventAnswers: seq<Answer>,
    summary: Document)

  datatype Happening =
    | StopSeen
    | Arrives(arrival: Arrival)
    | Drained(id: ConnectionId, summary: Document)
    | StatusWritten(status: Document)

  function RecordsOf(happenings: seq<Happening>): seq<Record> {
    if happenings == [] then []
    else
      var last := happenings[|happenings| - 1];
      RecordsOf(happenings[..|happenings| - 1]) + if last.Arrives? then [last.arrival.record] else []
  }

  const NOTHING := Outputs([], [], [])

  /** A recorder and its writers. */
  function Parts(recorder: Recording): set<object> {
    {recorder, recorder.wire, recorder.wave, recorder.events}
  }

  /** A recorder at work on the limited files of connection `id`, as an entry and a directory describe it. */
  ghost predicate Works(recorder: Recording, id: ConnectionId, limit: nat, entry: Entry, files: Outputs)
    reads Parts(recorder)
  {
    && recorder.Running()
    && recorder.id == id && recorder.sampleRate == RATE
    && recorder.wire.owner == recorder.wave.owner == recorder.events.owner == id
    && recorder.wire.cap == limit && recorder.wave.cap == limit && recorder.events.cap == limit
    && entry == Entry.Active(recorder.Remembered())
    && files == recorder.Now()
  }

  /** Every active entry has its recorder, at work on the files of its directory; `repr` holds all their parts. */
  ghost predicate Linked(config: Config, state: CaptureState, recorders: map<ConnectionId, Recording>,
                         repr: set<object>)
    reads repr
  {
    && (forall id <- recorders ::
          && Parts(recorders[id]) <= repr
          && id in state.entries && id in state.directories
          && Works(recorders[id], id, config.file, state.entries[id], state.directories[id].files))
    && (forall id <- state.entries :: id in state.directories && (state.entries[id].Active? ==> id in recorders))
  }

  predicate Answered(arrival: Arrival, outside: Outside) {
    && outside.directoryMade == arrival.directoryMade
    && outside.description == arrival.description && outside.summary == arrival.summary
  }

  /** What is answered where no recorder is asked. */
  function Unused(arrival: Arrival): Outside {
    Outside(arrival.directoryMade, false, arrival.description, false, NOTHING, false, NOTHING, arrival.summary)
  }

  lemma HeaderFits()
    ensures WaveHeader(0, RATE).Ok? && EmptyHeader() == Outputs([], WaveHeader(0, RATE).value, [])
  {
    HeaderReadsBack([], RATE);
  }

  /** The entry of a recorder that took its first record. */
  function Begun(record: Record): Entry {
    Entry.Active(Remember(record.connection, FRESH, record))
  }

  /** Creates the files and the recorder and gives it the first record; `null` is a failure at any point. */
  method Open(config: Config, arrival: Arrival) returns (recorder: Recording?, outside: Outside)
    ensures Opens(arrival.record, outside) && Fits(config, outside.files) && Answered(arrival, outside)
    ensures recorder != null <==> outside.recorded
    ensures recorder != null ==>
      && fresh(Parts(recorder))
      && Works(recorder, arrival.record.connection, config.file, Begun(arrival.record), outside.files)
  {
    hide Validate, Accept, WaveHeader;
    HeaderFits();
    outside := Unused(arrival);
    if !arrival.filesMade {
      return null, outside;
    }
    var id := arrival.record.connection;
    var wire := new Sink(id, config.file, arrival.wireAnswers);
    var wave := new Sink(id, config.file, arrival.waveAnswers);
    var events := new Sink(id, config.file, arrival.eventAnswers);
    var made := new Recording(id, RATE, wire, wave, events);
    if made.phase.Failed? {
      outside := outside.(files := Outputs(wire.contents, wave.contents, events.contents));
      return null, outside;
    }
    var done := made.RecordOne(arrival.record, arrival.description);
    outside := outside.(headerMade := true, recorded := done.Ok?,
                        files := Outputs(wire.contents, wave.contents, events.contents));
    recorder := if done.Ok? then made else null;
  }

  /** Gives a record to the recorder of its connection, and finishes that recorder after an end. */
  method Give(config: Config, recorder: Recording, arrival: Arrival, ghost entry: Entry, ghost files: Outputs)
    returns (outside: Outside)
    requires Works(recorder, arrival.record.connection, config.file, entry, files)
    modifies Parts(recorder)
    ensures Fits(config, outside.files) && Answered(arrival, outside)
    ensures Preserves(arrival.record.connection, RATE, entry.memory, files, arrival.record, outside.description,
                      outside.recorded, outside.files)
    ensures outside.recorded && arrival.record.kind.Ended? ==>
      Fits(config, outside.final) && Finalizes(RATE, outside.files, outside.finished, outside.final)
    ensures outside.recorded && !arrival.record.kind.Ended? ==>
      Works(recorder, arrival.record.connection, config.file,
            Entry.Active(Remember(arrival.record.connection, entry.memory, arrival.record)), outside.files)
  {
    hide Validate, Accept, WaveHeader, Finalizes;
    outside := Unused(arrival);
    var done := recorder.RecordOne(arrival.record, arrival.description);
    outside := outside.(
      recorded := done.Ok?,
      files := Outputs(recorder.wire.contents, recorder.wave.contents, recorder.events.contents));
    if done.Ok? && arrival.record.kind.Ended? {
      var finished := recorder.Finish();
      outside := outside.(
        finished := finished.Ok?,
        final := Outputs(recorder.wire.contents, recorder.wave.contents, recorder.events.contents));
    }
  }

  /** Only connection `id` is touched. */
  ghost predicate Touches(before: CaptureState, after: CaptureState, id: ConnectionId) {
    && (forall other :: other != id ==> (other in after.entries <==> other in before.entries))
    && (forall other <- before.entries :: other != id ==> after.entries[other] == before.entries[other])
    && (forall other :: other != id ==> (other in after.directories <==> other in before.directories))
    && (forall other <- before.directories :: other != id ==> after.directories[other] == before.directories[other])
  }

  lemma AdmitTouches(config: Config, state: CaptureState, record: Record, outside: Outside)
    ensures Touches(state, Admit(config, state, record, outside), record.connection)
  {
    hide Remember;
  }

  lemma ContinueTouches(config: Config, state: CaptureState, record: Record, outside: Outside)
    requires Capture.Recording(state, record.connection)
    ensures Touches(state, Continue(config, state, record, outside), record.connection)
  {
    hide Remember, Summarized;
  }

  lemma SummaryTouches(config: Config, state: CaptureState, id: ConnectionId, files: Outputs, outcome: Outcome,
                       summary: Document)
    requires id in state.directories
    ensures Touches(state, Summarize(config, state, id, files, outcome, summary), id)
    ensures id !in Summarize(config, state, id, files, outcome, summary).entries
  {
    hide Summarized;
  }

  /** A first record: the recorder it may open, and what it leaves of its own entry. */
  predicate CanOpen(config: Config, state: CaptureState, arrival: Arrival) {
    && !state.stopping && state.reserved != config.run && |state.entries| < config.active
    && arrival.directoryMade && arrival.record.connection !in state.directories
  }

  lemma AdmitOwn(config: Config, state: CaptureState, arrival: Arrival, outside: Outside)
    requires Answered(arrival, outside)
    ensures var id, next := arrival.record.connection, Admit(config, state, arrival.record, outside);
      if !CanOpen(config, state, arrival) then next.entries == state.entries && next.directories == state.directories
      else
        && id in next.directories && next.directories[id].files == outside.files && id in next.entries
        && next.entries[id] == if outside.recorded then Begun(arrival.record) else Entry.Failed
  {
    hide Remember;
  }

  lemma ContinueOwn(config: Config, state: CaptureState, record: Record, outside: Outside)
    requires Capture.Recording(state, record.connection)
    ensures var id, next := record.connection, Continue(config, state, record, outside);
      && id in next.directories
      && (outside.recorded && !record.kind.Ended? ==>
            && id in next.entries && next.directories[id].files == outside.files
            && next.entries[id] == Entry.Active(Remember(id, state.entries[id].memory, record)))
      && (!(outside.recorded && !record.kind.Ended?) && id in next.entries ==> next.entries[id].Failed?)
  {
    hide Remember, Summarized;
  }

  /** The recorders of other connections are at work, whatever became of `id`. */
  ghost predicate OthersWork(config: Config, state: CaptureState, recorders: map<ConnectionId, Recording>,
                             repr: set<object>, id: ConnectionId)
    reads repr
  {
    && (forall other <- recorders :: other != id ==>
          && Parts(recorders[other]) <= repr
          && other in state.entries && other in state.directories
          && Works(recorders[other], other, config.file, state.entries[other], state.directories[other].files))
    && (forall other <- state.entries :: other != id ==>
          other in state.directories && (state.entries[other].Active? ==> other in recorders))
  }

  predicate SameButFor(recorders: map<ConnectionId, Recording>, kept: map<ConnectionId, Recording>, id: ConnectionId) {
    && (forall other <- recorders :: other != id ==> other in kept && kept[other] == recorders[other])
    && (forall other <- kept :: other != id ==> other in recorders)
  }

  /** What must be known of one connection after its step; the others carry over. */
  lemma LinkedNext(config: Config, state: CaptureState, next: CaptureState, recorders: map<ConnectionId, Recording>,
                   kept: map<ConnectionId, Recording>, repr: set<object>, id: ConnectionId)
    requires OthersWork(config, state, recorders, repr, id)
    requires Touches(state, next, id) && SameButFor(recorders, kept, id)
    requires id in kept ==>
      && Parts(kept[id]) <= repr && id in next.entries && id in next.directories
      && Works(kept[id], id, config.file, next.entries[id], next.directories[id].files)
    requires id in next.entries ==> id in next.directories && (next.entries[id].Active? ==> id in kept)
    ensures Linked(config, next, kept, repr)
  {
    hide Works, Parts;
    forall other | other in kept
      ensures Parts(kept[other]) <= repr && other in next.entries && other in next.directories
      ensures Works(kept[other], other, config.file, next.entries[other], next.directories[other].files)
    {
      if other != id {
        assert other in recorders && kept[other] == recorders[other];
        assert next.entries[other] == state.entries[other] && next.directories[other] == state.directories[other];
      }
    }
  }

  lemma LinkedOthers(config: Config, state: CaptureState, recorders: map<ConnectionId, Recording>, repr: set<object>,
                     id: ConnectionId)
    requires Linked(config, state, recorders, repr)
    ensures OthersWork(config, state, recorders, repr, id)
    ensures id in recorders ==>
      && Parts(recorders[id]) <= repr
      && id in state.entries && id in state.directories && state.entries[id].Active?
      && Works(recorders[id], id, config.file, state.entries[id], state.directories[id].files)
    ensures id in state.entries ==> id in state.directories && (state.entries[id].Active? ==> id in recorders)
  {
    hide Recording.Running;
  }

  /** Recorders of different connections share nothing. */
  lemma PartsApart(config: Config, state: CaptureState, recorders: map<ConnectionId, Recording>, repr: set<object>,
                   id: ConnectionId)
    requires Linked(config, state, recorders, repr) && id in recorders
    ensures forall other <- recorders :: other != id ==> Parts(recorders[other]) !! Parts(recorders[id])
  {
    hide Recording.Running;
  }

  /** More parts do not disturb the recorders. */
  lemma OthersMore(config: Config, state: CaptureState, recorders: map<ConnectionId, Recording>, repr: set<object>,
                   more: set<object>, id: ConnectionId)
    requires OthersWork(config, state, recorders, repr, id)
    ensures OthersWork(config, state, recorders, repr + more, id)
  {
    hide Works, Parts;
  }

  /** A first record arrives. */
  method ArriveFirst(config: Config, state: CaptureState, recorders: map<ConnectionId, Recording>,
                     ghost repr: set<object>, arrival: Arrival)
    returns (next: CaptureState, kept: map<ConnectionId, Recording>, ghost more: set<object>, outside: Outside)
    requires Linked(config, state, recorders, repr) && arrival.record.kind.Connected?
    ensures Possible(config, state, Received(arrival.record, outside))
    ensures next == Effect(config, state, Received(arrival.record, outside))
    ensures Linked(config, next, kept, repr + more) && fresh(more)
  {
    hide Works, Opens, Begun, Remember, Admit, Linked, OthersWork, Touches, Parts;
    var id := arrival.record.connection;
    LinkedOthers(config, state, recorders, repr, id);
    outside, more := Unused(arrival), {};
    UnusedOpens(arrival, config);
    kept := recorders;
    if CanOpen(config, state, arrival) {
      var recorder;
      recorder, outside := Open(config, arrival);
      if recorder != null {
        kept, more := recorders[id := recorder], Parts(recorder);
      }
    }
    OthersMore(config, state, recorders, repr, more, id);
    next := Admit(config, state, arrival.record, outside);
    AdmitOwn(config, state, arrival, outside);
    AdmitTouches(config, state, arrival.record, outside);
    LinkedNext(config, state, next, recorders, kept, repr + more, id);
  }

  /** A later record arrives: its recorder takes it, and finishes after an end. */
  method ArriveLater(config: Config, state: CaptureState, recorders: map<ConnectionId, Recording>,
                     ghost repr: set<object>, arrival: Arrival)
    returns (next: CaptureState, kept: map<ConnectionId, Recording>, outside: Outside)
    requires Linked(config, state, recorders, repr) && !arrival.record.kind.Connected?
    modifies repr
    ensures Possible(config, state, Received(arrival.record, outside))
    ensures next == Effect(config, state, Received(arrival.record, outside))
    ensures Linked(config, next, kept, repr)
  {
    hide Begun, Remember, Continue, Linked, Touches, Preserves, Finalizes, Works;
    var id, record := arrival.record.connection, arrival.record;
    LinkedOthers(config, state, recorders, repr, id);
    outside, kept := Unused(arrival), recorders;
    if id !in recorders {
      next := Effect(config, state, Received(record, outside));
      LinkedFlags(config, state, next, recorders, repr);
      return;
    }
    PartsApart(config, state, recorders, repr, id);
    outside := Give(config, recorders[id], arrival, state.entries[id], state.directories[id].files);
    assert OthersWork(config, state, recorders, repr, id);
    next := Continue(config, state, record, outside);
    ContinueOwn(config, state, record, outside);
    ContinueTouches(config, state, record, outside);
    if !outside.recorded || record.kind.Ended? {
      kept := recorders - {id};
    }
    LinkedNext(config, state, next, recorders, kept, repr, id);
  }

  lemma LinkedFlags(config: Config, state: CaptureState, next: CaptureState, recorders: map<ConnectionId, Recording>,
                    repr: set<object>)
    requires Linked(config, state, recorders, repr)
    requires next.entries == state.entries && next.directories == state.directories
    ensures Linked(config, next, recorders, repr)
  {
    hide Works, Parts;
  }

  lemma UnusedOpens(arrival: Arrival, config: Config)
    ensures Opens(arrival.record, Unused(arrival)) && Fits(config, Unused(arrival).files)
  {
    HeaderFits();
    hide WaveHeader;
  }

  /** What is left is finalized: an active recorder finishes, and a summary is attempted. */
  method Finalize(config: Config, state: CaptureState, recorders: map<ConnectionId, Recording>,
                  ghost repr: set<object>, id: ConnectionId, summary: Document)
    returns (next: CaptureState, kept: map<ConnectionId, Recording>, outside: Outside)
    requires Linked(config, state, recorders, repr)
    modifies repr
    ensures Possible(config, state, Step.Finalize(id, outside))
    ensures next == Effect(config, state, Step.Finalize(id, outside))
    ensures Linked(config, next, kept, repr)
  {
    hide Linked, Touches, Finalizes, Works, Summarize;
    LinkedOthers(config, state, recorders, repr, id);
    outside := Outside(false, false, [], false, NOTHING, false, NOTHING, summary);
    kept := recorders;
    var files := if id in state.directories then state.directories[id].files else NOTHING;
    if id in recorders {
      PartsApart(config, state, recorders, repr, id);
      outside := Close(config, recorders[id], summary, state.entries[id], files, id);
      assert OthersWork(config, state, recorders, repr, id);
      kept, files := recorders - {id}, outside.final;
    }
    next := Effect(config, state, Step.Finalize(id, outside));
    if id in state.entries {
      SummaryTouches(config, state, id, files, NotObserved, summary);
      LinkedNext(config, state, next, recorders, kept, repr, id);
    }
  }

  method Close(config: Config, recorder: Recording, summary: Document, ghost entry: Entry, ghost files: Outputs,
               ghost id: ConnectionId)
    returns (outside: Outside)
    requires Works(recorder, id, config.file, entry, files)
    modifies Parts(recorder)
    ensures Fits(config, outside.final) && Finalizes(RATE, files, outside.finished, outside.final)
    ensures outside.summary == summary
  {
    hide Finalizes;
    var finished := recorder.Finish();
    outside := Outside(false, false, [], false, NOTHING, finished.Ok?,
                       Outputs(recorder.wire.contents, recorder.wave.contents, recorder.events.contents), summary);
  }

  /** One happening: what it leaves is what one possible step leaves. */
  method Happen(config: Config, state: CaptureState, recorders: map<ConnectionId, Recording>, ghost repr: set<object>,
                happening: Happening)
    returns (next: CaptureState, kept: map<ConnectionId, Recording>, ghost more: set<object>, ghost step: Step)
    requires Linked(config, state, recorders, repr)
    modifies repr
    ensures Possible(config, state, step) && next == Effect(config, state, step)
    ensures step.Received? <==> happening.Arrives?
    ensures happening.Arrives? ==> step.record == happening.arrival.record
    ensures Linked(config, next, kept, repr + more) && fresh(more)
  {
    hide Linked, Effect, Possible;
    kept, more := recorders, {};
    assert repr + {} == repr;
    match happening {
      case StopSeen =>
        step, next := StopWon, Effect(config, state, StopWon);
        FlagsLinked(config, state, step, recorders, repr);
      case StatusWritten(status) =>
        step, next := WriteStatus(status), Effect(config, state, WriteStatus(status));
        FlagsLinked(config, state, step, recorders, repr);
      case Drained(id, summary) =>
        var outside;
        next, kept, outside := Finalize(config, state, recorders, repr, id, summary);
        step := Step.Finalize(id, outside);
      case Arrives(arrival) =>
        var outside;
        if arrival.record.kind.Connected? {
          next, kept, more, outside := ArriveFirst(config, state, recorders, repr, arrival);
        } else {
          next, kept, outside := ArriveLater(config, state, recorders, repr, arrival);
        }
        step := Received(arrival.record, outside);
    }
  }

  /** A step that concerns no recorder. */
  lemma FlagsLinked(config: Config, state: CaptureState, step: Step, recorders: map<ConnectionId, Recording>,
                    repr: set<object>)
    requires Linked(config, state, recorders, repr) && (step.StopWon? || step.WriteStatus?)
    ensures Possible(config, state, step) && Linked(config, Effect(config, state, step), recorders, repr)
  {
    hide Linked;
    LinkedFlags(config, state, Effect(config, state, step), recorders, repr);
  }

  /**
   * The whole capture, over recorder objects and limited writers: it is a run of the step machine, every record was
   * received in it, and so what it leaves on disk is within the bound that was computed before.
   */
  method RunCapture(config: Config, happenings: seq<Happening>) returns (final: CaptureState, ghost steps: seq<Step>)
    ensures final == Run(config, steps) && Captured.Heard(config, steps) == RecordsOf(happenings)
    ensures var bound := CheckedOutputBound(config.run, config.file, config.summary, config.status);
      bound.Some? ==> DirectoryBytes(final.directories) + final.status <= bound.value
  {
    hide Linked, Effect, Possible, DirectoryBytes, CheckedOutputBound;
    var recorders: map<ConnectionId, Recording> := map[];
    ghost var repr: set<object> := {};
    final, steps := START, [];
    NothingLinked(config);
    for index := 0 to |happenings|
      invariant final == Run(config, steps) && Linked(config, final, recorders, repr) && fresh(repr)
      invariant Captured.Heard(config, steps) == RecordsOf(happenings[..index])
    {
      assert happenings[..index + 1][..index] == happenings[..index];
      ghost var more: set<object>, step: Step;
      final, recorders, more, step := Happen(config, final, recorders, repr, happenings[index]);
      repr := repr + more;
      assert (steps + [step])[..|steps|] == steps;
      steps := steps + [step];
    }
    assert happenings[..|happenings|] == happenings;
    if CheckedOutputBound(config.run, config.file, config.summary, config.status).Some? {
      OutputWithinBound(config, steps);
    }
  }

  lemma NothingLinked(config: Config)
    ensures Linked(config, START, map[], {})
  {
  }
}
