/** What a recorder accepts: its validating state machine and, independently, the sequences it accepts. */
module RecorderRules {
  import opened Wire
  import opened Records

  const WAVE_HEADER_BYTES: nat := 44
  const RIFF_OVERHEAD: nat := 36
  const U32_MAX: nat := 0xFFFF_FFFF

  datatype Violation = AfterFailure | AfterEnd | Connection | Order | UuidMismatch | Offset | AudioFormat | WaveSize

  datatype Phase = AwaitingConnection | AwaitingUuid | Active(uuid: Uuid) | Finished | Failed
  {
    function Identity(): Option<Uuid> {
      if Active? then Some(uuid) else None
    }
  }

  function Little(value: nat, width: nat): seq<byte>
    decreases width
  {
    if width == 0 then [] else [value % 256] + Little(value / 256, width - 1)
  }

  function FromLittle(bytes: seq<byte>): nat {
    if bytes == [] then 0 else bytes[0] + 256 * FromLittle(bytes[1..])
  }

  function Pow256(width: nat): nat {
    if width == 0 then 1 else 256 * Pow256(width - 1)
  }

  lemma {:induction false} LittleReadsBack(value: nat, width: nat)
    requires value < Pow256(width)
    ensures |Little(value, width)| == width && FromLittle(Little(value, width)) == value
    decreases width
  {
    if width > 0 {
      LittleReadsBack(value / 256, width - 1);
      assert Little(value, width)[1..] == Little(value / 256, width - 1);
    }
  }

  const RIFF: seq<byte> := [0x52, 0x49, 0x46, 0x46]
  const WAVE: seq<byte> := [0x57, 0x41, 0x56, 0x45]
  const FMT: seq<byte> := [0x66, 0x6d, 0x74, 0x20]
  const DATA: seq<byte> := [0x64, 0x61, 0x74, 0x61]

  function RiffPart(audioBytes: nat): seq<byte> {
    RIFF + Little(audioBytes + RIFF_OVERHEAD, 4) + WAVE
  }

  /** One `fmt ` chunk: 16 bytes, PCM, mono, rate, byte rate, block of 2 bytes, 16 bits. */
  function FormatPart(rate: SampleRate): seq<byte> {
    FMT + Little(16, 4) + (Little(1, 2) + Little(1, 2)) + (Little(Hertz(rate), 4) + Little(Hertz(rate) * 2, 4))
    + (Little(2, 2) + Little(16, 2))
  }

  function DataPart(audioBytes: nat): seq<byte> {
    DATA + Little(audioBytes, 4)
  }

  function WaveHeader(audioBytes: nat, rate: SampleRate): Result<seq<byte>, Violation> {
    if audioBytes > U32_MAX || audioBytes + RIFF_OVERHEAD > U32_MAX then Err(WaveSize)
    else Ok(RiffPart(audioBytes) + FormatPart(rate) + DataPart(audioBytes))
  }

  lemma Pow256Values()
    ensures Pow256(2) == 0x1_0000 && Pow256(4) == 0x1_0000_0000
  {
    assert Pow256(1) == 256 && Pow256(3) == 256 * Pow256(2);
  }

  lemma Cut(a: seq<byte>, b: seq<byte>, c: seq<byte>)
    ensures (a + b + c)[|a|..|a| + |b|] == b
  {
  }

  lemma FormatReadsBack(rate: SampleRate)
    ensures var part := FormatPart(rate);
      && |part| == 24
      && part[0..4] == FMT && FromLittle(part[4..8]) == 16
      && FromLittle(part[8..10]) == 1 && FromLittle(part[10..12]) == 1
      && FromLittle(part[12..16]) == Hertz(rate) && FromLittle(part[16..20]) == Hertz(rate) * 2
      && FromLittle(part[20..22]) == 2 && FromLittle(part[22..24]) == 16
  {
    Pow256Values();
    LittleReadsBack(16, 4);
    LittleReadsBack(1, 2);
    LittleReadsBack(Hertz(rate), 4);
    LittleReadsBack(Hertz(rate) * 2, 4);
    LittleReadsBack(2, 2);
    LittleReadsBack(16, 2);
    hide Little, FromLittle, Pow256, Hertz;
    var length, one, two, bits := Little(16, 4), Little(1, 2), Little(2, 2), Little(16, 2);
    var hertz, bytes := Little(Hertz(rate), 4), Little(Hertz(rate) * 2, 4);
    FormatCuts(length, one, hertz, bytes, two, bits);
  }

  lemma FormatCuts(length: seq<byte>, one: seq<byte>, hertz: seq<byte>, bytes: seq<byte>, two: seq<byte>,
                   bits: seq<byte>)
    requires |length| == |hertz| == |bytes| == 4 && |one| == |two| == |bits| == 2
    ensures var part := FMT + length + (one + one) + (hertz + bytes) + (two + bits);
      && |part| == 24
      && part[0..4] == FMT && part[4..8] == length && part[8..10] == one && part[10..12] == one
      && part[12..16] == hertz && part[16..20] == bytes && part[20..22] == two && part[22..24] == bits
  {
    var part := FMT + length + (one + one) + (hertz + bytes) + (two + bits);
    var tail := (hertz + bytes) + (two + bits);
    assert part == FMT + length + (one + one + tail);
    Cut(FMT, length, one + one + tail);
    assert part == (FMT + length) + one + (one + tail);
    Cut(FMT + length, one, one + tail);
    assert part == (FMT + length + one) + one + tail;
    Cut(FMT + length + one, one, tail);
    var head := FMT + length + (one + one);
    assert part == head + hertz + (bytes + (two + bits));
    Cut(head, hertz, bytes + (two + bits));
    assert part == (head + hertz) + bytes + (two + bits);
    Cut(head + hertz, bytes, two + bits);
    assert part == (head + (hertz + bytes)) + two + bits;
    Cut(head + (hertz + bytes), two, bits);
    assert part == (head + (hertz + bytes) + two) + bits + [];
    Cut(head + (hertz + bytes) + two, bits, []);
  }

  /** Read back as chunks, the header names the sizes of the very file it heads. */
  lemma HeaderReadsBack(audio: seq<byte>, rate: SampleRate)
    requires WaveHeader(|audio|, rate).Ok?
    ensures var file := WaveHeader(|audio|, rate).value + audio;
      && |file| == WAVE_HEADER_BYTES + |audio|
      && file[0..4] == RIFF && FromLittle(file[4..8]) == |file| - 8 && file[8..12] == WAVE
      && file[12..36] == FormatPart(rate)
      && file[36..40] == DATA && FromLittle(file[40..44]) == |audio| && file[44..] == audio
  {
    hide Little, FromLittle, FormatPart, Pow256;
    FormatWidth(rate);
    FieldReadsBack(|audio| + RIFF_OVERHEAD);
    FieldReadsBack(|audio|);
    HeaderCuts(Little(|audio| + RIFF_OVERHEAD, 4), FormatPart(rate), Little(|audio|, 4), audio);
  }

  lemma FormatWidth(rate: SampleRate)
    ensures |FormatPart(rate)| == 24
  {
    FormatReadsBack(rate);
  }

  /** The 32-bit fields of the header. */
  lemma FieldReadsBack(value: nat)
    requires value <= U32_MAX
    ensures |Little(value, 4)| == 4 && FromLittle(Little(value, 4)) == value
  {
    Pow256Values();
    LittleReadsBack(value, 4);
  }

  lemma HeaderCuts(riff: seq<byte>, format: seq<byte>, data: seq<byte>, audio: seq<byte>)
    requires |riff| == |data| == 4 && |format| == 24
    ensures var file := RIFF + riff + WAVE + format + (DATA + data) + audio;
      && |file| == WAVE_HEADER_BYTES + |audio|
      && file[0..4] == RIFF && file[4..8] == riff && file[8..12] == WAVE && file[12..36] == format
      && file[36..40] == DATA && file[40..44] == data && file[44..] == audio
  {
    var file := RIFF + riff + WAVE + format + (DATA + data) + audio;
    assert file == RIFF + riff + (WAVE + format + (DATA + data) + audio);
    Cut(RIFF, riff, WAVE + format + (DATA + data) + audio);
    assert file == (RIFF + riff) + WAVE + (format + (DATA + data) + audio);
    Cut(RIFF + riff, WAVE, format + (DATA + data) + audio);
    var head := RIFF + riff + WAVE;
    assert file == head + format + ((DATA + data) + audio);
    Cut(head, format, (DATA + data) + audio);
    assert file == (head + format) + DATA + (data + audio);
    Cut(head + format, DATA, data + audio);
    assert file == (head + format + DATA) + data + audio;
    Cut(head + format + DATA, data, audio);
  }

  /** What a record adds to the wire output, and to the PCM. */
  function WirePart(record: Record): seq<byte> {
    if record.kind.WireBytes? then record.kind.bytes else []
  }

  function AudioPart(record: Record): seq<byte> {
    if record.kind.AudioBytes? then record.kind.bytes else []
  }

  /** The contents of a recorder's three outputs. */
  datatype Outputs = Outputs(wire: seq<byte>, wave: seq<byte>, events: seq<byte>)
  {
    function With(record: Record, description: seq<byte>): Outputs {
      Outputs(wire + WirePart(record), wave + AudioPart(record), events + description)
    }

    predicate Begins(longer: Outputs) {
      wire <= longer.wire && wave <= longer.wave && events <= longer.events
    }
  }

  /** What creating a recorder promises about its outputs. */
  predicate Provisional(rate: SampleRate, ok: bool, after: Outputs) {
    && after.wire == [] && after.events == []
    && WaveHeader(0, rate).Ok?
    && (if ok then after.wave == WaveHeader(0, rate).value else after.wave <= WaveHeader(0, rate).value)
  }

  /** What one record promises: nothing if refused, everything if it succeeds, an accepted prefix if a writer fails. */
  predicate Preserves(id: ConnectionId, rate: SampleRate, memory: Memory, before: Outputs, record: Record,
                      description: seq<byte>, ok: bool, after: Outputs)
  {
    if Validate(id, rate, memory, record).Err? then !ok && after == before
    else if ok then after == before.With(record, description)
    else before.Begins(after) && after.Begins(before.With(record, description))
  }

  /** What finishing promises: all but the header stays, and success leaves the header of this very file. */
  predicate Finalizes(rate: SampleRate, before: Outputs, ok: bool, after: Outputs) {
    && |before.wave| == |after.wave| >= WAVE_HEADER_BYTES
    && after.wire == before.wire && after.events == before.events
    && after.wave[WAVE_HEADER_BYTES..] == before.wave[WAVE_HEADER_BYTES..]
    && (ok ==>
          && WaveHeader(|before.wave| - WAVE_HEADER_BYTES, rate).Ok?
          && after.wave == WaveHeader(|before.wave| - WAVE_HEADER_BYTES, rate).value + before.wave[WAVE_HEADER_BYTES..])
  }

  /** The recorder's memory of what it accepted. */
  datatype Memory = Memory(phase: Phase, lastEventOffset: nat, wireBytes: nat, audioBytes: nat)

  const FRESH := Memory(AwaitingConnection, 0, 0, 0)

  function Validate(id: ConnectionId, rate: SampleRate, memory: Memory, record: Record): Result<Phase, Violation> {
    var phase := memory.phase;
    if phase.Failed? then Err(AfterFailure)
    else if phase.Finished? then Err(AfterEnd)
    else if record.connection != id then Err(Connection)
    else if phase.AwaitingConnection? && !record.kind.Connected? then Err(Order)
    else if !record.kind.WireBytes? && (record.offset < memory.lastEventOffset || record.offset > memory.wireBytes) then
      Err(Offset)
    else
      match record.kind
      case Connected => if phase.AwaitingConnection? then Ok(AwaitingUuid) else Err(Order)
      case WireBytes(_) => if record.offset == memory.wireBytes then Ok(phase) else Err(Offset)
      case Started(uuid) => if phase.AwaitingUuid? then Ok(Active(uuid)) else Err(Order)
      case AudioBytes(uuid, declared, bytes) =>
        if phase.Identity() != Some(uuid) then Err(UuidMismatch)
        else if declared != rate || |bytes| % 2 != 0 then Err(AudioFormat)
        else
          var total := memory.audioBytes + |bytes|;
          if total > U64_MAX || WaveHeader(total, rate).Err? then Err(WaveSize) else Ok(phase)
      case Dtmf(uuid, _) => if phase.Identity() == Some(uuid) then Ok(phase) else Err(UuidMismatch)
      case Ended(identity, _) => if phase.Identity() == identity then Ok(Finished) else Err(UuidMismatch)
  }

  function Accept(memory: Memory, record: Record, phase: Phase): Memory {
    Memory(
      phase,
      if record.kind.WireBytes? then memory.lastEventOffset else record.offset,
      memory.wireBytes + if record.kind.WireBytes? then |record.kind.bytes| else 0,
      memory.audioBytes + if record.kind.AudioBytes? then |record.kind.bytes| else 0)
  }

  /** The verdict of a recorder on a whole sequence: its memory, or the first violation. */
  function Replay(id: ConnectionId, rate: SampleRate, records: seq<Record>): Result<Memory, Violation> {
    if records == [] then Ok(FRESH)
    else
      var last := records[|records| - 1];
      match Replay(id, rate, records[..|records| - 1])
      case Err(violation) => Err(violation)
      case Ok(memory) =>
        match Validate(id, rate, memory, last)
        case Err(violation) => Err(violation)
        case Ok(phase) => Ok(Accept(memory, last, phase))
  }

  function AudioOf(records: seq<Record>): seq<byte> {
    if records == [] then []
    else
      var last := records[|records| - 1];
      AudioOf(records[..|records| - 1]) + if last.kind.AudioBytes? then last.kind.bytes else []
  }

  /** The reason of the end that was recorded last, if any. */
  function EndIn(records: seq<Record>): Option<EndReason> {
    if records == [] then None
    else
      var last := records[|records| - 1];
      if last.kind.Ended? then Some(last.kind.reason) else EndIn(records[..|records| - 1])
  }

  predicate EndedIn(records: seq<Record>) {
    exists i :: 0 <= i < |records| && records[i].kind.Ended?
  }

  /** `uuid` is the one identity started in `records`. */
  predicate StartedAs(records: seq<Record>, uuid: Uuid) {
    exists i :: 0 <= i < |records| && records[i].kind == Started(uuid)
  }

  predicate NeverStarted(records: seq<Record>) {
    forall i :: 0 <= i < |records| ==> !records[i].kind.Started?
  }

  /** How a record may follow the records before it, in the terms of the sequence alone. */
  predicate Follows(id: ConnectionId, rate: SampleRate, before: seq<Record>, record: Record) {
    && !EndedIn(before)
    && record.connection == id
    && (record.kind.Connected? <==> before == [])
    && (record.kind.WireBytes? ==> record.offset == |RawBytes(before)|)
    && (!record.kind.WireBytes? ==>
        && record.offset <= |RawBytes(before)|
        && forall i :: 0 <= i < |before| && !before[i].kind.WireBytes? ==> before[i].offset <= record.offset)
    && match record.kind
       case Connected => true
       case WireBytes(_) => true
       case Started(_) => NeverStarted(before)
       case AudioBytes(uuid, declared, bytes) =>
         && StartedAs(before, uuid) && declared == rate && |bytes| % 2 == 0
         && |AudioOf(before)| + |bytes| + RIFF_OVERHEAD <= U32_MAX
       case Dtmf(uuid, _) => StartedAs(before, uuid)
       case Ended(None, _) => NeverStarted(before)
       case Ended(Some(uuid), _) => StartedAs(before, uuid)
  }

  predicate WellFormed(id: ConnectionId, rate: SampleRate, records: seq<Record>) {
    forall i :: 0 <= i < |records| ==> Follows(id, rate, records[..i], records[i])
  }

  /** The memory that a well-formed sequence leaves. */
  predicate Remembers(records: seq<Record>, memory: Memory) {
    && memory.wireBytes == |RawBytes(records)|
    && memory.audioBytes == |AudioOf(records)|
    && (forall i :: 0 <= i < |records| && !records[i].kind.WireBytes? ==> records[i].offset <= memory.lastEventOffset)
    && (memory.lastEventOffset == 0
        || exists i :: 0 <= i < |records| && !records[i].kind.WireBytes? && records[i].offset == memory.lastEventOffset)
    && (memory.phase.AwaitingConnection? <==> records == [])
    && (memory.phase.Finished? <==> EndedIn(records))
    && (memory.phase.AwaitingUuid? ==> NeverStarted(records))
    && (memory.phase.Active? ==>
        && StartedAs(records, memory.phase.uuid)
        && forall i :: 0 <= i < |records| && records[i].kind.Started? ==> records[i].kind.uuid == memory.phase.uuid)
    && !memory.phase.Failed?
  }

  lemma ValidateIsFollows(id: ConnectionId, rate: SampleRate, before: seq<Record>, memory: Memory, record: Record)
    requires Remembers(before, memory)
    ensures Validate(id, rate, memory, record).Ok? <==> Follows(id, rate, before, record)
  {
  }

  /** A record of the recorder's own connection, while that has not ended. */
  predicate Ours(id: ConnectionId, before: seq<Record>, record: Record) {
    !EndedIn(before) && record.connection == id
  }

  /** The offset of a record is that of the next raw byte, or a position already reached and not behind another. */
  predicate InPlace(before: seq<Record>, record: Record) {
    if record.kind.WireBytes? then record.offset == |RawBytes(before)|
    else
      && record.offset <= |RawBytes(before)|
      && forall i :: 0 <= i < |before| && !before[i].kind.WireBytes? ==> before[i].offset <= record.offset
  }

  /** A record after the first, in its place, that only its own content can still make unacceptable. */
  predicate Placed(id: ConnectionId, before: seq<Record>, record: Record) {
    Ours(id, before, record) && before != [] && InPlace(before, record)
  }

  /** What each refusal says of the sequence, in the order in which the rules are checked. */
  predicate Breaks(id: ConnectionId, rate: SampleRate, before: seq<Record>, record: Record, violation: Violation) {
    match violation
    case AfterFailure => false
    case AfterEnd => EndedIn(before)
    case Connection => !EndedIn(before) && record.connection != id
    case Order =>
      || (Ours(id, before, record) && before == [] && !record.kind.Connected?)
      || (Placed(id, before, record)
          && (record.kind.Connected? || (record.kind.Started? && !NeverStarted(before))))
    case Offset => Ours(id, before, record) && (before == [] ==> record.kind.Connected?) && !InPlace(before, record)
    case UuidMismatch =>
      && Placed(id, before, record)
      && (match record.kind
          case AudioBytes(uuid, _, _) => !StartedAs(before, uuid)
          case Dtmf(uuid, _) => !StartedAs(before, uuid)
          case Ended(None, _) => !NeverStarted(before)
          case Ended(Some(uuid), _) => !StartedAs(before, uuid)
          case _ => false)
    case AudioFormat =>
      && Placed(id, before, record) && record.kind.AudioBytes? && StartedAs(before, record.kind.uuid)
      && (record.kind.rate != rate || |record.kind.bytes| % 2 != 0)
    case WaveSize =>
      && Placed(id, before, record) && record.kind.AudioBytes? && StartedAs(before, record.kind.uuid)
      && record.kind.rate == rate && |record.kind.bytes| % 2 == 0
      && |AudioOf(before)| + |record.kind.bytes| + RIFF_OVERHEAD > U32_MAX
  }

  /** A refusal names the one rule that the record breaks. */
  lemma RefusalNames(id: ConnectionId, rate: SampleRate, before: seq<Record>, memory: Memory, record: Record)
    requires Remembers(before, memory)
    ensures forall violation :: Validate(id, rate, memory, record) == Err(violation) <==>
      Breaks(id, rate, before, record, violation)
  {
    ValidateIsFollows(id, rate, before, memory, record);
  }

  lemma AcceptRemembers(id: ConnectionId, rate: SampleRate, before: seq<Record>, memory: Memory, record: Record)
    requires Remembers(before, memory) && Validate(id, rate, memory, record).Ok?
    ensures Remembers(before + [record], Accept(memory, record, Validate(id, rate, memory, record).value))
  {
    var records := before + [record];
    var after := Accept(memory, record, Validate(id, rate, memory, record).value);
    hide RawBytes, ProtocolOf;
    Appended(before, record);
    assert records[..|before|] == before;
    assert records[|before|] == record;
    assert forall i :: 0 <= i < |before| ==> records[i] == before[i];
    if memory.lastEventOffset != 0 {
      var i :| 0 <= i < |before| && !before[i].kind.WireBytes? && before[i].offset == memory.lastEventOffset;
      assert records[i] == before[i];
    }
    if memory.phase.Active? {
      var i :| 0 <= i < |before| && before[i].kind == Started(memory.phase.uuid);
      assert records[i] == before[i];
    }
  }

  /** A recorder accepts exactly the well-formed sequences. */
  lemma {:induction false} AcceptsExactlyWellFormed(id: ConnectionId, rate: SampleRate, records: seq<Record>)
    ensures Replay(id, rate, records).Ok? <==> WellFormed(id, rate, records)
    ensures Replay(id, rate, records).Ok? ==> Remembers(records, Replay(id, rate, records).value)
    decreases |records|
  {
    hide Follows, Validate, Accept;
    if records != [] {
      hide Remembers, WellFormed;
      var before, last := records[..|records| - 1], records[|records| - 1];
      AcceptsExactlyWellFormed(id, rate, before);
      WellFormedStep(id, rate, before, last);
      assert records == before + [last];
      if Replay(id, rate, before).Ok? {
        var memory := Replay(id, rate, before).value;
        ValidateIsFollows(id, rate, before, memory, last);
        if Validate(id, rate, memory, last).Ok? {
          AcceptRemembers(id, rate, before, memory, last);
        }
      }
    }
  }

  lemma WellFormedStep(id: ConnectionId, rate: SampleRate, before: seq<Record>, last: Record)
    ensures WellFormed(id, rate, before + [last]) <==> WellFormed(id, rate, before) && Follows(id, rate, before, last)
  {
    hide Follows;
    var records := before + [last];
    assert forall i :: 0 <= i < |before| ==> records[..i] == before[..i] && records[i] == before[i];
    assert records[..|before|] == before && records[|before|] == last;
    if WellFormed(id, rate, records) {
      forall i | 0 <= i < |before|
        ensures Follows(id, rate, before[..i], before[i])
      {
        assert Follows(id, rate, records[..i], records[i]);
      }
      assert Follows(id, rate, records[..|before|], records[|before|]);
    }
  }

  /** A recorder that refused a sequence refuses every longer one, for the same reason. */
  lemma {:induction false} RefusalStands(id: ConnectionId, rate: SampleRate, shorter: seq<Record>, longer: seq<Record>)
    requires shorter <= longer && Replay(id, rate, shorter).Err?
    ensures Replay(id, rate, longer) == Replay(id, rate, shorter)
    decreases |longer|
  {
    if |shorter| < |longer| {
      RefusalStands(id, rate, shorter, longer[..|longer| - 1]);
    } else {
      assert shorter == longer;
    }
  }

  /** A verdict on one more record, and the audio with it. */
  lemma ReplayStep(id: ConnectionId, rate: SampleRate, before: seq<Record>, memory: Memory, record: Record)
    requires Replay(id, rate, before) == Ok(memory)
    ensures Replay(id, rate, before + [record]) ==
      match Validate(id, rate, memory, record)
      case Err(violation) => Err(violation)
      case Ok(phase) => Ok(Accept(memory, record, phase))
    ensures AudioOf(before + [record]) == AudioOf(before) + if record.kind.AudioBytes? then record.kind.bytes else []
    ensures EndIn(before + [record]) == if record.kind.Ended? then Some(record.kind.reason) else EndIn(before)
  {
    assert (before + [record])[..|before|] == before;
  }

  /** Record `k` is the first that breaks a rule, and it breaks this one. */
  predicate BreaksFirst(id: ConnectionId, rate: SampleRate, records: seq<Record>, k: nat, violation: Violation)
    requires k < |records|
  {
    WellFormed(id, rate, records[..k]) && Breaks(id, rate, records[..k], records[k], violation)
  }

  /** A refused sequence is well formed up to the record that breaks the rule it is refused for. */
  lemma {:induction false} ReplayNames(id: ConnectionId, rate: SampleRate, records: seq<Record>)
    requires Replay(id, rate, records).Err?
    ensures var violation := Replay(id, rate, records).error;
      exists k :: 0 <= k < |records| && BreaksFirst(id, rate, records, k, violation)
    decreases |records|
  {
    hide WellFormed, Breaks, Remembers, Validate;
    var before, last := records[..|records| - 1], records[|records| - 1];
    AcceptsExactlyWellFormed(id, rate, before);
    if Replay(id, rate, before).Err? {
      ReplayNames(id, rate, before);
      var k :| 0 <= k < |before| && BreaksFirst(id, rate, before, k, Replay(id, rate, before).error);
      assert before[..k] == records[..k] && before[k] == records[k];
      assert BreaksFirst(id, rate, records, k, Replay(id, rate, records).error);
    } else {
      RefusalNames(id, rate, before, Replay(id, rate, before).value, last);
      assert BreaksFirst(id, rate, records, |before|, Replay(id, rate, records).error);
    }
  }

  lemma {:induction false} AudioGrows(shorter: seq<Record>, longer: seq<Record>)
    requires shorter <= longer
    ensures AudioOf(shorter) <= AudioOf(longer)
    decreases |longer|
  {
    if |shorter| < |longer| {
      AudioGrows(shorter, longer[..|longer| - 1]);
    } else {
      assert shorter == longer;
    }
  }

  lemma AudioMore(before: seq<Record>, record: Record)
    ensures AudioOf(before + [record]) == AudioOf(before) + if record.kind.AudioBytes? then record.kind.bytes else []
  {
    assert (before + [record])[..|before|] == before;
  }

  lemma FollowsFits(id: ConnectionId, rate: SampleRate, before: seq<Record>, record: Record)
    requires Follows(id, rate, before, record) && |AudioOf(before)| + RIFF_OVERHEAD <= U32_MAX
    ensures |AudioOf(before + [record])| + RIFF_OVERHEAD <= U32_MAX
  {
    hide AudioOf;
    AudioMore(before, record);
  }

  lemma {:induction false} WellFormedFits(id: ConnectionId, rate: SampleRate, records: seq<Record>)
    requires WellFormed(id, rate, records)
    ensures |AudioOf(records)| + RIFF_OVERHEAD <= U32_MAX
    decreases |records|
  {
    hide Follows, WellFormed;
    if records != [] {
      hide AudioOf;
      var before, last := records[..|records| - 1], records[|records| - 1];
      assert records == before + [last];
      WellFormedStep(id, rate, before, last);
      WellFormedFits(id, rate, before);
      FollowsFits(id, rate, before, last);
    }
  }

  /** The audio of an accepted sequence fits a WAVE file; a sequence refused for its size does not. */
  lemma {:induction false} SizeIsAudio(id: ConnectionId, rate: SampleRate, records: seq<Record>)
    ensures Replay(id, rate, records).Ok? ==> |AudioOf(records)| + RIFF_OVERHEAD <= U32_MAX
    ensures Replay(id, rate, records) == Err(WaveSize) ==> |AudioOf(records)| + RIFF_OVERHEAD > U32_MAX
  {
    hide Replay, WellFormed, AudioOf;
    AcceptsExactlyWellFormed(id, rate, records);
    if Replay(id, rate, records).Ok? {
      WellFormedFits(id, rate, records);
    } else if Replay(id, rate, records) == Err(WaveSize) {
      ReplayNames(id, rate, records);
      var k :| 0 <= k < |records| && BreaksFirst(id, rate, records, k, WaveSize);
      AudioMore(records[..k], records[k]);
      assert records[..k + 1] == records[..k] + [records[k]];
      AudioGrows(records[..k + 1], records);
    }
  }
}
