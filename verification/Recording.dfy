/** The recorder over adversarial writers: short writes, interrupts and faults at any point. */
module Recording {
  import opened Wire
  import opened Records
  import opened RecorderRules

  /** How a writer answers one call. */
  datatype Answer = Interrupted | Takes(limit: nat) | Fault

  /** What a write of `size` bytes comes to, when the limit allows it. */
  function Reply(answers: seq<Answer>, size: nat): Result<nat, bool> {
    if answers == [] then Err(false)
    else
      match answers[0]
      case Interrupted => Err(true)
      case Fault => Err(false)
      case Takes(limit) => Ok(if limit < size then limit else size)
  }

  predicate Obeys(answers: seq<Answer>) {
    answers != [] && answers[0].Takes?
  }

  /** The bytes of an output after `data` was written at `position`. */
  function Overwritten(contents: seq<byte>, position: nat, data: seq<byte>): seq<byte>
    requires position <= |contents|
  {
    contents[..position] + data
      + if position + |data| <= |contents| then contents[position + |data|..] else []
  }

  lemma OverwrittenTwice(contents: seq<byte>, position: nat, first: seq<byte>, second: seq<byte>)
    requires position <= |contents|
    ensures position + |first| <= |Overwritten(contents, position, first)|
    ensures Overwritten(Overwritten(contents, position, first), position + |first|, second)
         == Overwritten(contents, position, first + second)
  {
  }

  lemma OverwrittenShape(contents: seq<byte>, position: nat, data: seq<byte>)
    requires position <= |contents|
    ensures |Overwritten(contents, position, data)|
         == if position + |data| <= |contents| then |contents| else position + |data|
    ensures data == [] ==> Overwritten(contents, position, data) == contents
    ensures position == |contents| ==> Overwritten(contents, position, data) == contents + data
    ensures position == 0 && |data| <= |contents| ==>
      && Overwritten(contents, position, data) == data + contents[|data|..]
      && Overwritten(contents, position, data)[|data|..] == contents[|data|..]
  {
  }

  /**
   * A writer with a position and a size limit. Its answers are fixed in advance and unknown to the recorder; when
   * they are used up it only fails. A write that would pass the limit is refused before anything of it is taken.
   */
  class Sink {
    /** The connection whose output this is. */
    ghost const owner: ConnectionId
    const cap: nat
    var contents: seq<byte>
    var position: nat
    var answers: seq<Answer>
    /** No byte was written since the last successful flush. */
    var flushed: bool
    /** Some call failed for a reason of the writer's own: a fault, no byte accepted, or the limit. */
    ghost var faulted: bool

    ghost predicate Valid()
      reads this
    {
      position <= |contents| <= cap
    }

    constructor (ghost owner: ConnectionId, cap: nat, answers: seq<Answer>)
      ensures this.owner == owner
      ensures Valid() && this.cap == cap && contents == [] && position == 0 && this.answers == answers
      ensures flushed && !faulted
    {
      this.owner := owner;
      this.cap, this.contents, this.position, this.answers, flushed, faulted := cap, [], 0, answers, true, false;
    }

    method Answered() returns (answer: Answer)
      modifies `answers
      ensures old(answers) == [] ==> answer == Fault && answers == []
      ensures old(answers) != [] ==> answer == old(answers[0]) && answers == old(answers[1..])
    {
      if answers == [] {
        return Fault;
      }
      answer := answers[0];
      answers := answers[1..];
    }

    /** `Ok(n)` accepts the first n bytes; `Err(true)` is an interrupt, `Err(false)` a fault. */
    method Write(bytes: seq<byte>) returns (r: Result<nat, bool>)
      requires Valid()
      modifies this
      ensures Valid()
      ensures r.Ok? ==> r.value <= |bytes|
      ensures contents == if r.Ok? then Overwritten(old(contents), old(position), bytes[..r.value]) else old(contents)
      ensures position == old(position) + if r.Ok? then r.value else 0
      ensures r == if old(position) + |bytes| > cap then Err(false) else Reply(old(answers), |bytes|)
      ensures faulted == (old(faulted) || r == Err(false) || (r == Ok(0) && bytes != []))
      ensures r.Err? && r.error ==> |answers| < |old(answers)|
      ensures flushed == (old(flushed) && (r.Err? || r.value == 0))
    {
      if position + |bytes| > cap {
        faulted := true;
        return Err(false);
      }
      var answer := Answered();
      match answer {
        case Interrupted => r := Err(true);
        case Fault => r := Err(false);
        case Takes(limit) =>
          var count := if limit < |bytes| then limit else |bytes|;
          contents := Overwritten(contents, position, bytes[..count]);
          position := position + count;
          flushed := flushed && count == 0;
          r := Ok(count);
      }
      faulted := faulted || r == Err(false) || (r == Ok(0) && bytes != []);
    }

    /** A seek is not retried: it fails unless the system simply does it. */
    method SeekStart() returns (ok: bool)
      requires Valid()
      modifies this
      ensures Valid() && contents == old(contents) && flushed == old(flushed)
      ensures ok == Obeys(old(answers)) && faulted == (old(faulted) || !ok)
      ensures position == if ok then 0 else old(position)
    {
      var answer := Answered();
      ok := answer.Takes?;
      faulted := faulted || !ok;
      if ok {
        position := 0;
      }
    }

    method Flush() returns (ok: bool)
      requires Valid()
      modifies `answers, `flushed, `faulted
      ensures Valid() && flushed == (ok || old(flushed))
      ensures ok == Obeys(old(answers)) && faulted == (old(faulted) || !ok)
    {
      var answer := Answered();
      ok := answer.Takes?;
      flushed, faulted := flushed || ok, faulted || !ok;
    }
  }

  /** Writes all bytes, retrying interrupts, and counts exactly what the writer accepted. */
  method WriteCount(output: Sink, bytes: seq<byte>, count: nat) returns (ok: bool, total: nat)
    requires output.Valid() && count <= U64_MAX
    modifies output
    ensures output.Valid()
    ensures count <= total <= count + |bytes| && total <= U64_MAX
    ensures output.contents == Overwritten(old(output.contents), old(output.position), bytes[..total - count])
    ensures output.position == old(output.position) + (total - count)
    ensures ok ==> total == count + |bytes|
    ensures count + |bytes| > U64_MAX ==> !ok && unchanged(output)
    ensures output.faulted == (old(output.faulted) || (!ok && count + |bytes| <= U64_MAX))
    ensures old(output.position) == |old(output.contents)| ==>
      && output.contents == old(output.contents) + bytes[..total - count]
      && output.position == |output.contents|
    ensures old(output.position) == 0 && |bytes| <= |old(output.contents)| ==>
      && |output.contents| == |old(output.contents)|
      && output.contents == bytes[..total - count] + old(output.contents)[total - count..]
      && output.contents[|bytes|..] == old(output.contents)[|bytes|..]
  {
    hide Overwritten;
    ghost var contents, position := output.contents, output.position;
    OverwrittenShape(contents, position, []);
    assert bytes[..0] == [];
    total := count;
    if count + |bytes| > U64_MAX {
      return false, count;
    }
    forall k | 0 <= k <= |bytes| {
      OverwrittenShape(contents, position, bytes[..k]);
    }
    assert bytes[..|bytes|] == bytes;
    var rest := bytes;
    while rest != []
      invariant output.Valid() && count <= total <= count + |bytes|
      invariant rest == bytes[total - count..]
      invariant output.contents == Overwritten(contents, position, bytes[..total - count])
      invariant output.position == position + (total - count)
      invariant output.faulted == old(output.faulted)
      decreases |rest|, |output.answers|
    {
      ghost var done := bytes[..total - count];
      var written := output.Write(rest);
      match written {
        case Err(interrupted) =>
          if !interrupted {
            return false, total;
          }
        case Ok(accepted) =>
          OverwrittenTwice(contents, position, done, rest[..accepted]);
          assert done + rest[..accepted] == bytes[..total - count + accepted];
          total := total + accepted;
          rest := rest[accepted..];
          if accepted == 0 {
            return false, total;
          }
      }
    }
    ok := true;
  }

  datatype Stage =
    | StageValidate | StageHeader | StageWire | StageAudio | StageEvents
    | StageSeek | StagePatch | StageFlushWire | StageFlushWave | StageFlushEvents

  datatype Failure = IoFailure | Invalid(violation: Violation)

  datatype RecordingError = RecordingError(stage: Stage, failure: Failure)

  /** Confirmed output of a recording. */
  datatype Summary = Summary(
    wireBytes: nat,
    audioBytes: nat,
    eventBytes: nat,
    headerBytes: nat,
    patchBytes: nat,
    end: Option<EndReason>)
  {
    /** A counter cannot count this record. */
    predicate Overflows(record: Record, description: seq<byte>) {
      wireBytes + |WirePart(record)| > U64_MAX || eventBytes + |description| > U64_MAX
    }
  }

  class Recording {
    const id: ConnectionId
    const sampleRate: SampleRate
    const wire: Sink
    const wave: Sink
    const events: Sink
    var phase: Phase
    var lastEventOffset: nat
    var summary: Summary

    /** Every counter equals what its writer holds, also after a failure; `Finish` says which bytes were patched. */
    ghost predicate Counted()
      reads this, wire, wave, events
    {
      && wire != wave && wave != events && wire != events
      && wire.Valid() && wave.Valid() && events.Valid()
      && |wire.contents| == summary.wireBytes <= U64_MAX
      && |wave.contents| == summary.headerBytes + summary.audioBytes && summary.audioBytes <= U64_MAX
      && |events.contents| == summary.eventBytes <= U64_MAX
      && summary.headerBytes <= WAVE_HEADER_BYTES && summary.patchBytes <= WAVE_HEADER_BYTES
    }

    /** A recorder that has not failed appends to complete outputs. */
    ghost predicate Running()
      reads this, wire, wave, events
    {
      && Counted()
      && !phase.Failed?
      && wire.position == |wire.contents| && wave.position == |wave.contents| && events.position == |events.contents|
      && summary.headerBytes == WAVE_HEADER_BYTES && summary.patchBytes == 0
      && summary.audioBytes + RIFF_OVERHEAD <= U32_MAX
      && (phase.Finished? <==> summary.end.Some?)
    }

    ghost predicate Valid()
      reads this, wire, wave, events
    {
      Counted() && (!phase.Failed? ==> Running())
    }

    /** What the validating state machine remembers. */
    ghost function Remembered(): Memory
      reads this
    {
      Memory(phase, lastEventOffset, summary.wireBytes, summary.audioBytes)
    }

    /** The PCM written after the header. */
    ghost function Pcm(): seq<byte>
      requires Valid() && !phase.Failed?
      reads this, wire, wave, events
    {
      wave.contents[WAVE_HEADER_BYTES..]
    }

    ghost function Now(): Outputs
      reads this, wire, wave, events
    {
      Outputs(wire.contents, wave.contents, events.contents)
    }

    /** No writer failed so far. */
    ghost predicate Sound()
      reads this, wire, wave, events
    {
      !wire.faulted && !wave.faulted && !events.faulted
    }

    /** Starts over empty outputs with a provisional empty header. */
    constructor (id: ConnectionId, sampleRate: SampleRate, wire: Sink, wave: Sink, events: Sink)
      requires wire != wave && wave != events && wire != events
      requires wire.Valid() && wave.Valid() && events.Valid()
      requires wire.contents == wave.contents == events.contents == []
      requires wire.position == wave.position == events.position == 0
      modifies wave
      ensures this.id == id && this.sampleRate == sampleRate
      ensures this.wire == wire && this.wave == wave && this.events == events
      ensures Valid()
      ensures !phase.Failed? ==> Remembered() == FRESH && wave.contents == WaveHeader(0, sampleRate).value
      ensures Provisional(sampleRate, !phase.Failed?, Now())
      ensures wave.faulted == (old(wave.faulted) || phase.Failed?)
    {
      this.id, this.sampleRate, this.wire, this.wave, this.events := id, sampleRate, wire, wave, events;
      phase, lastEventOffset, summary := AwaitingConnection, 0, Summary(0, 0, 0, 0, 0, None);
      new;
      HeaderLength(0, sampleRate);
      hide WaveHeader, Overwritten;
      var header := WaveHeader(0, sampleRate).value;
      var ok, count := WriteCount(wave, header, 0);
      summary := summary.(headerBytes := count);
      if !ok {
        phase := Failed;
      }
    }

    /** Preserves one record: its payload, then one diagnostic line. A refused record touches no writer. */
    method RecordOne(record: Record, description: seq<byte>) returns (r: Result<(), RecordingError>)
      requires Valid()
      modifies this, wire, wave, events
      ensures Valid()
      ensures var verdict := Validate(id, sampleRate, old(Remembered()), record);
        if verdict.Err? then
          && r == Err(RecordingError(StageValidate, Invalid(verdict.error)))
          && phase.Failed? && summary == old(summary)
          && unchanged(wire) && unchanged(wave) && unchanged(events)
        else if r.Err? then
          && phase.Failed? && r.error.failure == IoFailure
          && if r.error.stage == StageEvents then
               && wire.contents == old(wire.contents) + WirePart(record)
               && wave.contents == old(wave.contents) + AudioPart(record)
             else events.contents == old(events.contents)
        else
          && !phase.Failed?
          && Remembered() == Accept(old(Remembered()), record, verdict.value)
          && wire.contents == old(wire.contents) + WirePart(record)
          && wave.contents == old(wave.contents) + AudioPart(record)
          && events.contents == old(events.contents) + description
          && summary.end == if record.kind.Ended? then Some(record.kind.reason) else old(summary.end)
      ensures old(wire.contents) <= wire.contents <= old(wire.contents) + WirePart(record)
      ensures old(wave.contents) <= wave.contents <= old(wave.contents) + AudioPart(record)
      ensures old(events.contents) <= events.contents <= old(events.contents) + description
      ensures Preserves(id, sampleRate, old(Remembered()), old(Now()), record, description, r.Ok?, Now())
      ensures Sound() ==> old(Sound())
      ensures r.Err? && r.error.failure.IoFailure? ==> !Sound() || old(summary).Overflows(record, description)
      ensures r.Ok? || r.error.failure.Invalid? ==> Sound() == old(Sound())
    {
      var verdict := Validate(id, sampleRate, Memory(phase, lastEventOffset, summary.wireBytes, summary.audioBytes),
                              record);
      if verdict.Err? {
        phase := Failed;
        return Err(RecordingError(StageValidate, Invalid(verdict.error)));
      }
      AcceptedFits(id, sampleRate, Memory(phase, lastEventOffset, summary.wireBytes, summary.audioBytes), record);
      hide Validate;
      r := Commit(record, description, verdict.value);
    }

    /** The output of an accepted record, and the state it leaves. */
    method Commit(record: Record, description: seq<byte>, next: Phase) returns (r: Result<(), RecordingError>)
      requires Running() && !phase.Finished? && !next.Failed? && (next.Finished? <==> record.kind.Ended?)
      requires record.kind.AudioBytes? ==> summary.audioBytes + |record.kind.bytes| + RIFF_OVERHEAD <= U32_MAX
      modifies this, wire, wave, events
      ensures Valid()
      ensures r.Err? ==>
        && phase.Failed? && r.error.failure == IoFailure
        && if r.error.stage == StageEvents then
             && wire.contents == old(wire.contents) + WirePart(record)
             && wave.contents == old(wave.contents) + AudioPart(record)
           else events.contents == old(events.contents)
      ensures r.Ok? ==>
        && !phase.Failed?
        && Remembered() == Accept(old(Remembered()), record, next)
        && wire.contents == old(wire.contents) + WirePart(record)
        && wave.contents == old(wave.contents) + AudioPart(record)
        && events.contents == old(events.contents) + description
        && summary.end == if record.kind.Ended? then Some(record.kind.reason) else old(summary.end)
      ensures old(wire.contents) <= wire.contents <= old(wire.contents) + WirePart(record)
      ensures old(wave.contents) <= wave.contents <= old(wave.contents) + AudioPart(record)
      ensures old(events.contents) <= events.contents <= old(events.contents) + description
      ensures Sound() ==> old(Sound())
      ensures r.Err? ==> !Sound() || old(summary).Overflows(record, description)
      ensures r.Ok? ==> Sound() == old(Sound())
    {
      hide Overwritten, WaveHeader;
      var ok, stage := Preserve(record);
      if ok {
        ok := Describe(description);
        stage := StageEvents;
      }
      if !ok {
        phase := Failed;
        return Err(RecordingError(stage, IoFailure));
      }
      if !record.kind.WireBytes? {
        lastEventOffset := record.offset;
      }
      if record.kind.Ended? {
        summary := summary.(end := Some(record.kind.reason));
      }
      phase := next;
      r := Ok(());
    }

    /** Appends the diagnostic line. */
    method Describe(description: seq<byte>) returns (ok: bool)
      requires Running()
      modifies this`summary, events
      ensures Counted() && (ok ==> Running())
      ensures summary == old(summary).(eventBytes := summary.eventBytes)
      ensures old(events.contents) <= events.contents <= old(events.contents) + description
      ensures ok ==> events.contents == old(events.contents) + description
      ensures events.faulted == (old(events.faulted) || (!ok && old(summary).eventBytes + |description| <= U64_MAX))
    {
      hide Overwritten, WaveHeader;
      var total;
      ok, total := WriteCount(events, description, summary.eventBytes);
      summary := summary.(eventBytes := total);
    }

    /** Appends the payload, if any, to the output it belongs to. */
    method Preserve(record: Record) returns (ok: bool, stage: Stage)
      requires Running()
      requires record.kind.AudioBytes? ==> summary.audioBytes + |record.kind.bytes| + RIFF_OVERHEAD <= U32_MAX
      modifies this`summary, wire, wave
      ensures Counted()
      ensures ok ==>
        && Running()
        && wire.contents == old(wire.contents) + WirePart(record)
        && wave.contents == old(wave.contents) + AudioPart(record)
        && summary == old(summary).(
             wireBytes := old(summary.wireBytes) + if record.kind.WireBytes? then |record.kind.bytes| else 0,
             audioBytes := old(summary.audioBytes) + if record.kind.AudioBytes? then |record.kind.bytes| else 0)
      ensures old(wire.contents) <= wire.contents <= old(wire.contents) + WirePart(record)
      ensures old(wave.contents) <= wave.contents <= old(wave.contents) + AudioPart(record)
      ensures stage == StageEvents ==> ok
      ensures !wire.faulted && !wave.faulted <==>
        !old(wire.faulted) && !old(wave.faulted) && (!ok ==> old(summary).wireBytes + |WirePart(record)| > U64_MAX)
    {
      hide WaveHeader, Overwritten;
      var total;
      ok, stage := true, StageEvents;
      match record.kind {
        case WireBytes(bytes) =>
          ok, total := WriteCount(wire, bytes, summary.wireBytes);
          stage, summary := StageWire, summary.(wireBytes := total);
        case AudioBytes(_, _, bytes) =>
          ok, total := WriteCount(wave, bytes, summary.audioBytes);
          stage, summary := StageAudio, summary.(audioBytes := total);
        case _ =>
      }
    }

    /** All records of a fresh recorder, until one is refused or a writer fails. */
    method RecordAll(records: seq<Record>, descriptions: seq<seq<byte>>) returns (r: Result<(), RecordingError>)
      requires Running() && Sound() && Remembered() == FRESH && summary.end == None
      requires wire.contents == [] && Pcm() == [] && events.contents == []
      requires |descriptions| == |records|
      modifies this, wire, wave, events
      ensures wire.contents <= RawBytes(records) && events.contents <= Flatten(descriptions)
      ensures |wave.contents| >= WAVE_HEADER_BYTES && wave.contents[WAVE_HEADER_BYTES..] <= AudioOf(records)
      ensures r.Ok? ==>
        && Running() && Sound()
        && Recorded(id, sampleRate, records, descriptions, |records|, Remembered(), summary.end,
                    wire.contents, Pcm(), events.contents)
      ensures r.Err? && r.error.failure.Invalid? ==> Replay(id, sampleRate, records) == Err(r.error.failure.violation)
      ensures r.Err? && r.error.failure.IoFailure? && Sound() ==>
        |RawBytes(records)| > U64_MAX || |Flatten(descriptions)| > U64_MAX
    {
      hide WaveHeader, Validate, Accept, Replay, RawBytes, AudioOf, EndIn, Flatten, Preserves, Finalizes, Recorded;
      RecordedNone(id, sampleRate, records, descriptions);
      PrefixMeans([], records);
      NothingYet(id, sampleRate);
      PrefixOfAudio([], records);
      PrefixFlattens(descriptions, 0);
      for index := 0 to |records|
        invariant Running() && Sound()
        invariant Recorded(id, sampleRate, records, descriptions, index, Remembered(), summary.end,
                           wire.contents, Pcm(), events.contents)
        invariant wire.contents <= RawBytes(records) && Pcm() <= AudioOf(records)
        invariant events.contents <= Flatten(descriptions)
      {
        RecordedMore(id, sampleRate, records, descriptions, index, Remembered(), summary.end,
                     wire.contents, Pcm(), events.contents);
        ghost var pcm := Pcm();
        var done := RecordOne(records[index], descriptions[index]);
        if done.Err? {
          return Err(done.error);
        }
        assert Pcm() == pcm + AudioPart(records[index]);
      }
      r := Ok(());
    }

    /** Patches the sizes and flushes. Success leaves a complete file; no size can be refused this late. */
    method Finish() returns (r: Result<Summary, RecordingError>)
      requires Valid()
      modifies this, wire, wave, events
      ensures Counted()
      ensures old(phase.Failed?) ==>
        && r == Err(RecordingError(StageValidate, Invalid(AfterFailure)))
        && unchanged(wire) && unchanged(wave) && unchanged(events)
      ensures !old(phase.Failed?) ==>
        && wire.contents == old(wire.contents) && events.contents == old(events.contents)
        && |wave.contents| == |old(wave.contents)| && wave.contents[WAVE_HEADER_BYTES..] == old(Pcm())
        && WaveHeader(|old(Pcm())|, sampleRate).Ok?
        && wave.contents == WaveHeader(|old(Pcm())|, sampleRate).value[..summary.patchBytes]
            + old(wave.contents)[summary.patchBytes..]
        && summary == old(summary).(patchBytes := summary.patchBytes)
        && Finalizes(sampleRate, old(Now()), r.Ok?, Now())
        && (Sound() <==> old(Sound()) && r.Ok?)
        && (r.Err? ==> r.error.failure == IoFailure && phase.Failed?)
      ensures r.Ok? ==>
        && r.value == old(summary).(patchBytes := WAVE_HEADER_BYTES)
        && wave.contents == WaveHeader(|old(Pcm())|, sampleRate).value + old(Pcm())
        && wire.flushed && wave.flushed && events.flushed
    {
      if phase.Failed? {
        return Err(RecordingError(StageValidate, Invalid(AfterFailure)));
      }
      HeaderLength(summary.audioBytes, sampleRate);
      hide WaveHeader;
      var ok, stage := Patch(WaveHeader(summary.audioBytes, sampleRate).value);
      if ok {
        ok, stage := FlushAll();
      }
      if !ok {
        phase := Failed;
        return Err(RecordingError(stage, IoFailure));
      }
      r := Ok(summary);
    }

    /** Overwrites the header; the counter says how much of it was replaced. */
    method Patch(header: seq<byte>) returns (ok: bool, stage: Stage)
      requires Running() && |header| == WAVE_HEADER_BYTES
      modifies this`summary, wave
      ensures Counted()
      ensures |wave.contents| == |old(wave.contents)|
      ensures wave.contents == header[..summary.patchBytes] + old(wave.contents)[summary.patchBytes..]
      ensures wave.contents[WAVE_HEADER_BYTES..] == old(wave.contents)[WAVE_HEADER_BYTES..]
      ensures summary == old(summary).(patchBytes := summary.patchBytes)
      ensures ok ==> summary.patchBytes == WAVE_HEADER_BYTES
      ensures wave.faulted == (old(wave.faulted) || !ok)
    {
      hide Overwritten;
      ok := wave.SeekStart();
      stage := StageSeek;
      if ok {
        var total;
        ok, total := WriteCount(wave, header, summary.patchBytes);
        stage, summary := StagePatch, summary.(patchBytes := total);
      }
    }

    /** Flushes wire, PCM and events, in that order, until one fails. */
    method FlushAll() returns (ok: bool, stage: Stage)
      requires wire.Valid() && wave.Valid() && events.Valid()
      modifies wire`answers, wave`answers, events`answers
      modifies wire`flushed, wave`flushed, events`flushed
      modifies wire`faulted, wave`faulted, events`faulted
      ensures Sound() <==> old(Sound()) && ok
      ensures ok ==> wire.flushed && wave.flushed && events.flushed
    {
      ok := wire.Flush();
      stage := StageFlushWire;
      if ok {
        ok := wave.Flush();
        stage := StageFlushWave;
      }
      if ok {
        ok := events.Flush();
        stage := StageFlushEvents;
      }
    }
  }

  /** What validation promises to the writes that follow it. */
  lemma AcceptedFits(id: ConnectionId, rate: SampleRate, memory: Memory, record: Record)
    requires Validate(id, rate, memory, record).Ok?
    ensures var phase := Validate(id, rate, memory, record).value;
      && !memory.phase.Failed? && !memory.phase.Finished? && !phase.Failed?
      && (phase.Finished? <==> record.kind.Ended?)
      && (record.kind.AudioBytes? ==> memory.audioBytes + |record.kind.bytes| + RIFF_OVERHEAD <= U32_MAX)
  {
  }

  lemma HeaderLength(audioBytes: nat, rate: SampleRate)
    requires audioBytes + RIFF_OVERHEAD <= U32_MAX
    ensures WaveHeader(audioBytes, rate).Ok? && |WaveHeader(audioBytes, rate).value| == WAVE_HEADER_BYTES
  {
    HeaderReadsBack(seq(audioBytes, _ => 0), rate);
  }

  /** One connection recorded from its first record to its finish; the first error stops it. */
  method RecordConnection(id: ConnectionId, rate: SampleRate, wire: Sink, wave: Sink, events: Sink,
                          records: seq<Record>, descriptions: seq<seq<byte>>)
    returns (r: Result<Summary, RecordingError>)
    requires wire != wave && wave != events && wire != events
    requires wire.Valid() && wave.Valid() && events.Valid()
    requires wire.contents == wave.contents == events.contents == []
    requires wire.position == wave.position == events.position == 0
    requires |descriptions| == |records|
    requires !wire.faulted && !wave.faulted && !events.faulted
    modifies wire, wave, events
    ensures r.Ok? ==>
      && Replay(id, rate, records).Ok?
      && wire.contents == RawBytes(records)
      && WaveHeader(|AudioOf(records)|, rate).Ok?
      && wave.contents == WaveHeader(|AudioOf(records)|, rate).value + AudioOf(records)
      && events.contents == Flatten(descriptions)
      && r.value.wireBytes == |RawBytes(records)| && r.value.audioBytes == |AudioOf(records)|
      && r.value.end == EndIn(records)
      && wire.flushed && wave.flushed && events.flushed
    ensures r.Ok? <==>
      && Replay(id, rate, records).Ok? && !wire.faulted && !wave.faulted && !events.faulted
      && |RawBytes(records)| <= U64_MAX && |Flatten(descriptions)| <= U64_MAX
    ensures r.Err? && r.error.failure.Invalid? ==> Replay(id, rate, records) == Err(r.error.failure.violation)
    ensures wire.contents <= RawBytes(records) && events.contents <= Flatten(descriptions)
    ensures |wave.contents| >= WAVE_HEADER_BYTES ==> wave.contents[WAVE_HEADER_BYTES..] <= AudioOf(records)
  {
    hide WaveHeader, Validate, Accept, Replay, RawBytes, AudioOf, EndIn, Flatten, Preserves, Finalizes, Recorded;
    NothingYet(id, rate);
    var recorder := new Recording(id, rate, wire, wave, events);
    PrefixMeans([], records);
    PrefixOfAudio([], records);
    PrefixFlattens(descriptions, 0);
    HeaderLength(0, rate);
    if recorder.phase.Failed? {
      return Err(RecordingError(StageHeader, IoFailure));
    }
    var done := recorder.RecordAll(records, descriptions);
    if done.Err? {
      return Err(done.error);
    }
    RecordedAll(id, rate, records, descriptions, recorder.Remembered(), recorder.summary.end,
                wire.contents, recorder.Pcm(), events.contents);
    r := recorder.Finish();
  }


  /** What is known after `index` records: the verdict so far and the exact outputs. */
  ghost predicate Recorded(id: ConnectionId, rate: SampleRate, records: seq<Record>, descriptions: seq<seq<byte>>,
                           index: nat, memory: Memory, end: Option<EndReason>,
                           wire: seq<byte>, pcm: seq<byte>, events: seq<byte>)
    requires index <= |records| == |descriptions|
  {
    && Replay(id, rate, records[..index]) == Ok(memory)
    && wire == RawBytes(records[..index])
    && pcm == AudioOf(records[..index])
    && events == Flatten(descriptions[..index])
    && end == EndIn(records[..index])
  }

  lemma RecordedNone(id: ConnectionId, rate: SampleRate, records: seq<Record>, descriptions: seq<seq<byte>>)
    requires |records| == |descriptions|
    ensures Recorded(id, rate, records, descriptions, 0, FRESH, None, [], [], [])
  {
    NothingYet(id, rate);
  }

  lemma RecordedAll(id: ConnectionId, rate: SampleRate, records: seq<Record>, descriptions: seq<seq<byte>>,
                    memory: Memory, end: Option<EndReason>, wire: seq<byte>, pcm: seq<byte>, events: seq<byte>)
    requires |records| == |descriptions|
    requires Recorded(id, rate, records, descriptions, |records|, memory, end, wire, pcm, events)
    ensures Replay(id, rate, records) == Ok(memory) && end == EndIn(records)
    ensures wire == RawBytes(records) && pcm == AudioOf(records) && events == Flatten(descriptions)
  {
    assert records[..|records|] == records && descriptions[..|records|] == descriptions;
  }

  /** What each answer to the next record then means for the whole sequence. */
  lemma RecordedMore(id: ConnectionId, rate: SampleRate, records: seq<Record>, descriptions: seq<seq<byte>>,
                     index: nat, memory: Memory, end: Option<EndReason>,
                           wire: seq<byte>, pcm: seq<byte>, events: seq<byte>)
    requires index < |records| == |descriptions|
    requires Recorded(id, rate, records, descriptions, index, memory, end, wire, pcm, events)
    ensures wire + WirePart(records[index]) <= RawBytes(records)
    ensures pcm + AudioPart(records[index]) <= AudioOf(records)
    ensures events + descriptions[index] <= Flatten(descriptions)
    ensures match Validate(id, rate, memory, records[index])
      case Err(violation) => Replay(id, rate, records) == Err(violation)
      case Ok(phase) =>
        Recorded(id, rate, records, descriptions, index + 1, Accept(memory, records[index], phase),
                 if records[index].kind.Ended? then Some(records[index].kind.reason) else end,
                 wire + WirePart(records[index]), pcm + AudioPart(records[index]), events + descriptions[index])
  {
    hide Validate, Accept, Replay, RawBytes, AudioOf, EndIn, Flatten;
    var before, record := records[..index], records[index];
    assert records[..index + 1] == before + [record];
    assert descriptions[..index + 1] == descriptions[..index] + [descriptions[index]];
    ReplayStep(id, rate, before, memory, record);
    Records.Appended(before, record);
    FlattenMore(descriptions[..index], descriptions[index]);
    PrefixMeans(records[..index + 1], records);
    PrefixOfAudio(records[..index + 1], records);
    PrefixFlattens(descriptions, index + 1);
    if Validate(id, rate, memory, record).Err? {
      RefusalStands(id, rate, records[..index + 1], records);
    }
  }

  lemma NothingYet(id: ConnectionId, rate: SampleRate)
    ensures Replay(id, rate, []) == Ok(FRESH) && RawBytes([]) == [] && AudioOf([]) == [] && EndIn([]) == None
    ensures Flatten<byte>([]) == []
  {
  }

  lemma {:induction false} FlattenMore(parts: seq<seq<byte>>, last: seq<byte>)
    ensures Flatten(parts + [last]) == Flatten(parts) + last
  {
    if parts == [] {
      assert Flatten([last]) == last + Flatten([]);
    } else {
      FlattenMore(parts[1..], last);
      assert (parts + [last])[1..] == parts[1..] + [last];
    }
  }

  lemma {:induction false} PrefixFlattens(parts: seq<seq<byte>>, count: nat)
    requires count <= |parts|
    ensures Flatten(parts[..count]) <= Flatten(parts)
    decreases |parts| - count
  {
    if count == |parts| {
      assert parts[..count] == parts;
    } else {
      assert parts[..count + 1] == parts[..count] + [parts[count]];
      FlattenMore(parts[..count], parts[count]);
      PrefixFlattens(parts, count + 1);
    }
  }

  lemma {:induction false} PrefixOfAudio(shorter: seq<Record>, longer: seq<Record>)
    requires shorter <= longer
    ensures AudioOf(shorter) <= AudioOf(longer)
    decreases |longer|
  {
    if |shorter| < |longer| {
      PrefixOfAudio(shorter, longer[..|longer| - 1]);
    } else {
      assert shorter == longer;
    }
  }
}
