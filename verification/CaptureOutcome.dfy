/** When a capture fails, when it stops, and that it can succeed. */
module CaptureOutcome {
  import opened Wire
  import opened Records
  import opened RecorderRules
  import opened Capture
  import Captured

  /** A first record that is not recorded although the run still admits. */
  predicate Unadmitted(config: Config, state: CaptureState, record: Record, outside: Outside) {
    && record.kind.Connected? && !state.stopping
    && (state.reserved == config.run || |state.entries| >= config.active || !outside.directoryMade
        || record.connection in state.directories || !outside.recorded)
  }

  /** A recorder, or the summary after it, that failed. */
  predicate Lost(config: Config, state: CaptureState, record: Record, outside: Outside) {
    && !record.kind.Connected? && Recording(state, record.connection)
    && (!outside.recorded
        || (record.kind.Ended? && (!outside.finished || !outside.summary.Complete(config.summary))))
  }

  /** A recording that is whole but ends with what does not count as a success. */
  predicate EndsBadly(config: Config, state: CaptureState, record: Record, outside: Outside) {
    && Recording(state, record.connection) && record.kind.Ended?
    && outside.recorded && outside.finished && outside.summary.Complete(config.summary)
    && record.kind.reason != CleanEof && record.kind.reason != Terminated
  }

  /** A record of a connection that has no directory of its own. */
  predicate Unowned(state: CaptureState, record: Record) {
    !record.kind.Connected? && record.connection !in state.entries
  }

  /** What makes a run fail. */
  predicate Spoils(config: Config, state: CaptureState, step: Step) {
    match step
    case StopWon => false
    case Received(record, outside) =>
      || Unadmitted(config, state, record, outside) || Lost(config, state, record, outside)
      || EndsBadly(config, state, record, outside) || Unowned(state, record)
    case Finalize(id, _) => id in state.entries
    case WriteStatus(status) => !status.Complete(config.status)
  }

  /** What makes a run stop: being told to, or a failure of its own in admission, recording or summary. */
  predicate Stops(config: Config, state: CaptureState, step: Step) {
    match step
    case StopWon => true
    case Received(record, outside) => Unadmitted(config, state, record, outside) || Lost(config, state, record, outside)
    case _ => false
  }

  lemma StepOutcome(config: Config, state: CaptureState, step: Step)
    requires state.entries.Keys <= state.directories.Keys && Possible(config, state, step)
    ensures Effect(config, state, step).bad <==> state.bad || Spoils(config, state, step)
    ensures Effect(config, state, step).stopping <==> state.stopping || Stops(config, state, step)
  {
    hide Possible, Remember, Summarized, Document.Kept, Document.Complete;
    if step.Received? && step.record.kind.Connected? {
      AdmitOutcome(config, state, step.record, step.outside);
    } else if step.Received? && Recording(state, step.record.connection) {
      ContinueOutcome(config, state, step.record, step.outside);
    }
    hide Admit, Continue;
  }

  lemma AdmitOutcome(config: Config, state: CaptureState, record: Record, outside: Outside)
    requires record.kind.Connected?
    ensures var next := Admit(config, state, record, outside);
      && (next.bad <==> state.bad || Unadmitted(config, state, record, outside))
      && (next.stopping <==> state.stopping || Unadmitted(config, state, record, outside))
  {
    hide Remember;
  }

  lemma ContinueOutcome(config: Config, state: CaptureState, record: Record, outside: Outside)
    requires !record.kind.Connected? && Recording(state, record.connection)
    ensures var next := Continue(config, state, record, outside);
      && (next.bad <==> state.bad || Lost(config, state, record, outside) || EndsBadly(config, state, record, outside))
      && (next.stopping <==> state.stopping || Lost(config, state, record, outside))
  {
    hide Remember, Summarized, Document.Complete;
  }

  /** The events of a run that count: those that the writers and the file system can answer. */
  predicate SpoilsAt(config: Config, steps: seq<Step>, i: nat)
    requires i < |steps|
  {
    Possible(config, Run(config, steps[..i]), steps[i]) && Spoils(config, Run(config, steps[..i]), steps[i])
  }

  predicate StopsAt(config: Config, steps: seq<Step>, i: nat)
    requires i < |steps|
  {
    Possible(config, Run(config, steps[..i]), steps[i]) && Stops(config, Run(config, steps[..i]), steps[i])
  }

  /** A run fails exactly if one of its events spoils it, and admits nothing more exactly after one that stops it. */
  lemma {:induction false} OutcomeIff(config: Config, steps: seq<Step>)
    ensures Run(config, steps).bad <==> exists i :: 0 <= i < |steps| && SpoilsAt(config, steps, i)
    ensures Run(config, steps).stopping <==> exists i :: 0 <= i < |steps| && StopsAt(config, steps, i)
    decreases |steps|
  {
    hide Possible, Effect, Spoils, Stops;
    if steps != [] {
      var before, last := steps[..|steps| - 1], |steps| - 1;
      OutcomeIff(config, before);
      KeysOwned(config, before);
      assert steps[..last] == before;
      forall i | 0 <= i < last
        ensures SpoilsAt(config, steps, i) == SpoilsAt(config, before, i)
        ensures StopsAt(config, steps, i) == StopsAt(config, before, i)
      {
        assert steps[..i] == before[..i] && steps[i] == before[i];
      }
      if Possible(config, Run(config, before), steps[last]) {
        StepOutcome(config, Run(config, before), steps[last]);
      }
      LastOrBefore(config, steps);
    }
  }

  lemma LastOrBefore(config: Config, steps: seq<Step>)
    requires steps != []
    requires forall i :: 0 <= i < |steps| - 1 ==>
      SpoilsAt(config, steps, i) == SpoilsAt(config, steps[..|steps| - 1], i)
    requires forall i :: 0 <= i < |steps| - 1 ==>
      StopsAt(config, steps, i) == StopsAt(config, steps[..|steps| - 1], i)
    ensures var before, last := steps[..|steps| - 1], |steps| - 1;
      && ((exists i :: 0 <= i < |steps| && SpoilsAt(config, steps, i)) <==>
            SpoilsAt(config, steps, last) || exists i :: 0 <= i < last && SpoilsAt(config, before, i))
      && ((exists i :: 0 <= i < |steps| && StopsAt(config, steps, i)) <==>
            StopsAt(config, steps, last) || exists i :: 0 <= i < last && StopsAt(config, before, i))
  {
    hide SpoilsAt, StopsAt;
    var before, last := steps[..|steps| - 1], |steps| - 1;
    if i :| 0 <= i < last && SpoilsAt(config, before, i) {
      assert SpoilsAt(config, steps, i);
    }
    if i :| 0 <= i < last && StopsAt(config, before, i) {
      assert StopsAt(config, steps, i);
    }
  }

  lemma KeysOwned(config: Config, steps: seq<Step>)
    ensures Run(config, steps).entries.Keys <= Run(config, steps).directories.Keys
  {
    RunTidy(config, steps);
    hide Run;
  }

  // A capture can succeed.

  /** Everything the system is asked for is done. */
  function Kindly(files: Outputs, final: Outputs): Outside {
    Outside(true, true, [], true, files, true, final, Document(0, true, 0, true))
  }

  /** The files while `records` are recorded, and after the recorder finished. */
  function FilesOf(records: seq<Record>): Outputs {
    Outputs(RawBytes(records), EmptyHeader().wave + AudioOf(records), [])
  }

  function FinalOf(records: seq<Record>): Outputs {
    var audio := AudioOf(records);
    var header := WaveHeader(|audio|, RATE);
    Outputs(RawBytes(records), if header.Ok? then header.value + audio else [], [])
  }

  /** A run that records one connection, after `records` of it. */
  predicate Underway(config: Config, steps: seq<Step>, id: ConnectionId, records: seq<Record>) {
    var state := Run(config, steps);
    && Captured.Heard(config, steps) == records && |steps| == |records|
    && !state.bad && !state.stopping
    && Replay(id, RATE, records).Ok?
    && state.entries == map[id := Entry.Active(Replay(id, RATE, records).value)]
    && state.directories == map[id := Directory(FilesOf(records), 0, [])]
  }

  /** The parts of one run, one step longer. */
  lemma OneMore(config: Config, steps: seq<Step>, step: Step)
    requires Possible(config, Run(config, steps), step)
    ensures Run(config, steps + [step]) == Effect(config, Run(config, steps), step)
    ensures Captured.Heard(config, steps + [step])
      == Captured.Heard(config, steps) + if step.Received? then [step.record] else []
  {
    assert (steps + [step])[..|steps|] == steps;
    hide Possible, Effect;
  }

  lemma EmptyHeaderFits()
    ensures WaveHeader(0, RATE).Ok? && EmptyHeader() == Outputs([], WaveHeader(0, RATE).value, [])
    ensures |EmptyHeader().wave| == WAVE_HEADER_BYTES
  {
    HeaderReadsBack([], RATE);
    hide WaveHeader;
  }

  /** The first record of a connection opens its recording. */
  lemma FirstUnderway(config: Config, id: ConnectionId, record: Record)
    requires config.run > 0 && config.active > 0 && config.file >= WAVE_HEADER_BYTES
    requires record == Record(id, 0, Connected)
    ensures var step := Received(record, Kindly(FilesOf([record]), FilesOf([record])));
      Underway(config, [step], id, [record])
  {
    var files := FilesOf([record]);
    var step := Received(record, Kindly(files, files));
    EmptyHeaderFits();
    ReplayStep(id, RATE, [], FRESH, record);
    Records.Appended([], record);
    assert [] + [record] == [record];
    assert [] + [step] == [step];
    hide WaveHeader, RawBytes, Replay;
    assert Run(config, []) == START;
    assert EmptyHeader().With(record, []) == files;
    OneMore(config, [], step);
  }

  /** Each later record that is not the end is kept. */
  lemma LaterUnderway(config: Config, steps: seq<Step>, id: ConnectionId, records: seq<Record>, record: Record)
    requires Underway(config, steps, id, records) && Replay(id, RATE, records + [record]).Ok?
    requires !record.kind.Connected? && !record.kind.Ended?
    requires Fits(config, FilesOf(records + [record]))
    ensures record.connection == id
    ensures var step := Received(record, Kindly(FilesOf(records + [record]), FilesOf(records + [record])));
      Underway(config, steps + [step], id, records + [record])
  {
    hide WaveHeader, RawBytes, Replay, AudioOf, Run, Captured.Heard, Validate, Accept, FilesOf, EmptyHeader;
    var memory, more := Replay(id, RATE, records).value, records + [record];
    var step := Received(record, Kindly(FilesOf(more), FilesOf(more)));
    ReplayStep(id, RATE, records, memory, record);
    ValidOwn(id, memory, record);
    FilesMore(records, record);
    OneMore(config, steps, step);
  }

  lemma ValidOwn(id: ConnectionId, memory: Memory, record: Record)
    requires Validate(id, RATE, memory, record).Ok?
    ensures record.connection == id
  {
  }

  lemma FilesMore(records: seq<Record>, record: Record)
    ensures FilesOf(records).With(record, []) == FilesOf(records + [record])
  {
    Records.Appended(records, record);
    AudioMore(records, record);
    hide RawBytes, AudioOf, EmptyHeader;
  }

  /** The end of a connection that counts as a success closes its recording and leaves the run good. */
  lemma EndCloses(config: Config, steps: seq<Step>, id: ConnectionId, records: seq<Record>, record: Record)
    requires Underway(config, steps, id, records) && Replay(id, RATE, records + [record]).Ok?
    requires record.kind.Ended? && (record.kind.reason == CleanEof || record.kind.reason == Terminated)
    requires Fits(config, FilesOf(records + [record]))
    ensures var step := Received(record, Kindly(FilesOf(records + [record]), FinalOf(records + [record])));
      var state := Run(config, steps + [step]);
      && Captured.Heard(config, steps + [step]) == records + [record]
      && !state.bad && state.entries == map[]
      && state.directories == map[id := Directory(FinalOf(records + [record]), 0, [Attempt(Observed, true)])]
  {
    hide WaveHeader, RawBytes, Replay, AudioOf, Run, Captured.Heard, Validate, Accept, FilesOf, FinalOf, EmptyHeader;
    var memory, more := Replay(id, RATE, records).value, records + [record];
    var step := Received(record, Kindly(FilesOf(more), FinalOf(more)));
    ReplayStep(id, RATE, records, memory, record);
    ValidOwn(id, memory, record);
    FilesMore(records, record);
    FinalFits(config, id, more);
    OneMore(config, steps, step);
    assert map[id := Entry.Active(memory)] - {id} == map[];
    assert [] + [Attempt(Observed, true)] == [Attempt(Observed, true)];
  }

  /** Finishing replaces the empty header by that of the audio that follows it, and nothing else. */
  lemma FinalFits(config: Config, id: ConnectionId, records: seq<Record>)
    requires Replay(id, RATE, records).Ok? && Fits(config, FilesOf(records))
    ensures Fits(config, FinalOf(records)) && Finalizes(RATE, FilesOf(records), true, FinalOf(records))
  {
    SizeIsAudio(id, RATE, records);
    EmptyHeaderFits();
    var audio := AudioOf(records);
    HeaderReadsBack(audio, RATE);
    HeaderFitsSize(audio);
    hide WaveHeader, RawBytes, AudioOf, Replay, EmptyHeader;
    var before, after := FilesOf(records), FinalOf(records);
    assert before.wave[WAVE_HEADER_BYTES..] == audio && after.wave[WAVE_HEADER_BYTES..] == audio;
    assert |before.wave| - WAVE_HEADER_BYTES == |audio| && |after.wave| == |before.wave|;
  }

  lemma HeaderFitsSize(audio: seq<byte>)
    requires |audio| + RIFF_OVERHEAD <= U32_MAX
    ensures WaveHeader(|audio|, RATE).Ok? && |WaveHeader(|audio|, RATE).value| == WAVE_HEADER_BYTES
  {
    HeaderReadsBack(audio, RATE);
    hide WaveHeader;
  }

  /** The records of a connection that a recorder of the run accepts to the end. */
  predicate Recordable(config: Config, id: ConnectionId, records: seq<Record>) {
    && config.run > 0 && config.active > 0
    && Replay(id, RATE, records).Ok? && records != []
    && records[|records| - 1].kind.Ended?
    && (records[|records| - 1].kind.reason == CleanEof || records[|records| - 1].kind.reason == Terminated)
    && Fits(config, FilesOf(records))
  }

  /** A run that recorded all of one connection, and is good. */
  predicate Succeeds(config: Config, steps: seq<Step>, id: ConnectionId, records: seq<Record>) {
    var state := Run(config, steps);
    && Captured.Heard(config, steps) == records && |steps| == |records|
    && !state.bad && state.entries == map[]
    && state.directories == map[id := Directory(FinalOf(records), 0, [Attempt(Observed, true)])]
  }

  /** What a prefix of recordable records leaves within the limits. */
  lemma PrefixFits(config: Config, shorter: seq<Record>, longer: seq<Record>)
    requires shorter <= longer && Fits(config, FilesOf(longer))
    ensures Fits(config, FilesOf(shorter))
  {
    PrefixMeans(shorter, longer);
    AudioGrows(shorter, longer);
    hide RawBytes, AudioOf, EmptyHeader, ProtocolOf;
  }

  /** All but the last record of a recordable connection. */
  lemma {:induction false} UnderwayTo(config: Config, id: ConnectionId, records: seq<Record>, count: nat)
    returns (steps: seq<Step>)
    requires Recordable(config, id, records) && 0 < count < |records|
    ensures Underway(config, steps, id, records[..count])
    decreases count
  {
    hide FilesOf, Underway, Replay;
    var shorter, record := records[..count], records[count - 1];
    PrefixFits(config, shorter, records);
    PlacedKinds(id, records, count - 1);
    Accepted(id, records, count);
    if count == 1 {
      assert shorter == [record];
      HeaderRoom(config, shorter);
      FirstUnderway(config, id, record);
      return [Received(record, Kindly(FilesOf([record]), FilesOf([record])))];
    }
    var before := UnderwayTo(config, id, records, count - 1);
    assert shorter == records[..count - 1] + [record];
    LaterUnderway(config, before, id, records[..count - 1], record);
    steps := before + [Received(record, Kindly(FilesOf(shorter), FilesOf(shorter)))];
  }

  lemma HeaderRoom(config: Config, records: seq<Record>)
    requires Fits(config, FilesOf(records))
    ensures config.file >= WAVE_HEADER_BYTES
  {
    EmptyHeaderFits();
    hide EmptyHeader, AudioOf, RawBytes;
  }

  /** An accepted sequence was accepted up to each of its records. */
  lemma Accepted(id: ConnectionId, records: seq<Record>, count: nat)
    requires count <= |records| && Replay(id, RATE, records).Ok?
    ensures Replay(id, RATE, records[..count]).Ok?
  {
    if Replay(id, RATE, records[..count]).Err? {
      RefusalStands(id, RATE, records[..count], records);
    }
  }

  /** Which records of an accepted sequence admit, go on and end. */
  lemma PlacedKinds(id: ConnectionId, records: seq<Record>, i: nat)
    requires Replay(id, RATE, records).Ok? && i < |records|
    ensures records[i].connection == id
    ensures if i == 0 then records[i] == Record(id, 0, Connected) else !records[i].kind.Connected?
    ensures i < |records| - 1 ==> !records[i].kind.Ended?
  {
    hide Replay;
    AcceptsExactlyWellFormed(id, RATE, records);
    assert Follows(id, RATE, records[..i], records[i]);
    if i < |records| - 1 {
      assert Follows(id, RATE, records[..i + 1], records[i + 1]);
      assert records[..i + 1][i] == records[i];
    }
  }

  /**
   * A capture can succeed: every connection that a recorder of the run accepts up to a good end, with files within
   * their limits, can be recorded by a run that ends good and leaves exactly its files and one summary.
   */
  lemma {:induction false} CanSucceed(config: Config, id: ConnectionId, records: seq<Record>)
    requires Recordable(config, id, records)
    ensures exists steps: seq<Step> :: Succeeds(config, steps, id, records)
    ensures Captured.Complete(id, FinalOf(records), records)
  {
    hide *;
    var count := |records| - 1;
    var before := AllButLast(config, id, records);
    assert records == records[..count] + [records[count]];
    var steps := Closed(config, before, id, records[..count], records[count]);
    FinalComplete(config, id, records);
  }

  lemma AllButLast(config: Config, id: ConnectionId, records: seq<Record>) returns (steps: seq<Step>)
    requires Recordable(config, id, records)
    ensures records != [] && Underway(config, steps, id, records[..|records| - 1])
  {
    hide FilesOf, Underway, Replay;
    PlacedKinds(id, records, 0);
    steps := UnderwayTo(config, id, records, |records| - 1);
  }

  lemma Closed(config: Config, before: seq<Step>, id: ConnectionId, records: seq<Record>, record: Record)
    returns (steps: seq<Step>)
    requires Underway(config, before, id, records) && Recordable(config, id, records + [record])
    ensures Succeeds(config, steps, id, records + [record])
  {
    var more := records + [record];
    var step := Received(record, Kindly(FilesOf(more), FinalOf(more)));
    LengthOf(config, before, id, records);
    hide FilesOf, FinalOf, Replay, Underway, Run, Captured.Heard, Kindly;
    EndCloses(config, before, id, records, record);
    steps := before + [step];
  }

  lemma LengthOf(config: Config, steps: seq<Step>, id: ConnectionId, records: seq<Record>)
    requires Underway(config, steps, id, records)
    ensures |steps| == |records|
  {
  }

  lemma FinalComplete(config: Config, id: ConnectionId, records: seq<Record>)
    requires Recordable(config, id, records)
    ensures Captured.Complete(id, FinalOf(records), records)
  {
    SizeIsAudio(id, RATE, records);
    HeaderFitsSize(AudioOf(records));
    hide WaveHeader, RawBytes, AudioOf, Replay;
  }
}
