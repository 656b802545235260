/** What the records of a stream name: the frame each one reports, and how the stream ended. */
module Endings {
  import opened Wire
  import opened Records
  import opened Meaning
  import opened Framing
  import Codec
  import Encoder
  import Envelope
  import Session
  import Traces

  /** The one frame that a record reports, in a session that was started as `named`, or the frame it refuses. */
  predicate Names(profile: Session.IncomingProfile, named: Option<Uuid>, raw: RawEnvelope, kind: RecordKind) {
    match kind
    case Connected => false
    case WireBytes(_) => false
    case Started(uuid) => named == None && raw == Encoder.Carrier(Identity(uuid))
    case AudioBytes(uuid, rate, bytes) =>
      named == Some(uuid) && raw == Encoder.Carrier(Audio(rate, bytes)) && profile.Accepts(rate)
    case Dtmf(uuid, digit) =>
      named == Some(uuid) && raw == Encoder.Carrier(Digit(digit)) && Session.AcceptedDigit(digit)
    case Ended(identity, reason) =>
      && identity == named
      && match reason
         case Terminated => raw == Encoder.Carrier(Terminate)
         case PeerFailure(bytes) => raw == Encoder.Carrier(PeerError(bytes))
         case InvalidMessage(error) => Envelope.Typed(raw) == Err(error)
         case Policy(cause) =>
           && Envelope.Typed(raw).Ok?
           && Session.Deserves(profile, named, Session.Message(Envelope.Typed(raw).value), cause)
         case _ => false
  }

  lemma MeaningNames(setup: Setup, session: Session.SessionState, raw: RawEnvelope)
    requires !session.SessionEnded? && |raw.payload| <= MAX_BODY_BYTES
    ensures var (kind, next) := FrameMeaning(setup, session, raw);
      && Names(setup.profile, session.Identity(), raw, kind)
      && (next.None? <==> kind.Ended?)
      && (next.Some? ==> !next.value.SessionEnded?)
      && (next.Some? ==> next.value.Identity() == if kind.Started? then Some(kind.uuid) else session.Identity())
  {
    if Envelope.Typed(raw).Ok? {
      Encoder.CarrierInvertsTyped(raw);
    }
    hide Envelope.Typed, Encoder.Carrier, Session.IncomingProfile.Accepts, Session.AcceptedDigit;
  }

  /** The identity held before record `i` of a reading that began in `session`. */
  function HeldBefore(session: Session.SessionState, records: seq<Record>, i: nat): Option<Uuid>
    requires i <= |records|
  {
    if session.Active? || i == 0 then session.Identity() else Traces.StartedBy(records, i)
  }

  /** Record `i` stands at the end of frame `i` and reports it. */
  predicate NamesAt(setup: Setup, session: Session.SessionState, frames: seq<RawEnvelope>, offset: nat,
                    records: seq<Record>, i: nat)
    requires i < |records| && i < |frames| && Codec.Wired(frames)
  {
    && records[i].connection == setup.id
    && records[i].offset == offset + |Codec.Spelled(frames[..i + 1])|
    && Names(setup.profile, HeldBefore(session, records, i), frames[i], records[i].kind)
    && (records[i].kind.Ended? ==> i == |records| - 1)
  }

  /** A reading has one record for each frame, up to the one that ends it, or one more for the refusal after them. */
  predicate FramesNamed(setup: Setup, session: Session.SessionState, bytes: seq<byte>, offset: nat) {
    var parsed := Codec.Parse(Codec.Raw, setup.payloadCapacity, bytes);
    var records := Read(setup, session, bytes, offset).records;
    && Codec.Wired(parsed.frames)
    && (forall i :: 0 <= i < |records| && i < |parsed.frames| ==>
          NamesAt(setup, session, parsed.frames, offset, records, i))
    && (|records| < |parsed.frames| ==> records != [] && records[|records| - 1].kind.Ended?)
    && (|records| > |parsed.frames| ==>
          && |records| == |parsed.frames| + 1 && parsed.end.Fault? && parsed.end.at >= 0
          && records[|records| - 1] == Record(setup.id, offset + parsed.end.at,
                                              Ended(HeldBefore(session, records, |records| - 1),
                                                    Decode(parsed.end.error))))
    && (|records| == |parsed.frames| && parsed.end.Fault? ==>
          records != [] && records[|records| - 1].kind.Ended?)
  }

  /** The identity that was held is the same whether the first record is counted or already behind. */
  lemma HeldOn(setup: Setup, session: Session.SessionState, raw: RawEnvelope, first: Record, later: seq<Record>, i: nat)
    requires !session.SessionEnded? && |raw.payload| <= MAX_BODY_BYTES && i <= |later|
    requires FrameMeaning(setup, session, raw).1.Some? && first.kind == FrameMeaning(setup, session, raw).0
    ensures HeldBefore(session, [first] + later, i + 1)
         == HeldBefore(FrameMeaning(setup, session, raw).1.value, later, i)
  {
    MeaningNames(setup, session, raw);
    hide FrameMeaning, Encoder.Carrier, Session.IncomingProfile.Accepts, Session.AcceptedDigit, Envelope.Typed;
  }

  lemma NamesOn(setup: Setup, session: Session.SessionState, raw: RawEnvelope, frames: seq<RawEnvelope>, offset: nat,
                first: Record, later: seq<Record>, i: nat)
    requires !session.SessionEnded? && |raw.payload| <= MAX_BODY_BYTES && Codec.Wired(frames)
    requires FrameMeaning(setup, session, raw).1.Some?
    requires first == Record(setup.id, offset + HEADER_BYTES + |raw.payload|, FrameMeaning(setup, session, raw).0)
    requires i < |later| && i < |frames|
    requires NamesAt(setup, FrameMeaning(setup, session, raw).1.value, frames, offset + HEADER_BYTES + |raw.payload|,
                     later, i)
    ensures Codec.Wired([raw] + frames) && NamesAt(setup, session, [raw] + frames, offset, [first] + later, i + 1)
  {
    HeldOn(setup, session, raw, first, later, i);
    Codec.SpelledFront(raw, frames);
    Codec.SpelledFront(raw, frames[..i + 1]);
    assert ([raw] + frames)[..i + 2] == [raw] + frames[..i + 1];
    hide FrameMeaning, Names, HeldBefore, Codec.Spelled, Codec.Wired;
  }

  lemma NamesFirst(setup: Setup, session: Session.SessionState, raw: RawEnvelope, frames: seq<RawEnvelope>, offset: nat,
                   first: Record, later: seq<Record>)
    requires !session.SessionEnded? && |raw.payload| <= MAX_BODY_BYTES && Codec.Wired(frames)
    requires first == Record(setup.id, offset + HEADER_BYTES + |raw.payload|, FrameMeaning(setup, session, raw).0)
    requires FrameMeaning(setup, session, raw).1.None? ==> later == []
    ensures Codec.Wired([raw] + frames) && NamesAt(setup, session, [raw] + frames, offset, [first] + later, 0)
  {
    MeaningNames(setup, session, raw);
    Codec.SpelledFront(raw, []);
    assert ([raw] + frames)[..1] == [raw] + [];
    hide FrameMeaning, Names;
  }

  lemma FramesNamedStep(setup: Setup, session: Session.SessionState, bytes: seq<byte>, offset: nat, raw: RawEnvelope,
                        tail: seq<byte>)
    requires !session.SessionEnded? && |raw.payload| <= MAX_BODY_BYTES
    requires Codec.Parse(Codec.Raw, setup.payloadCapacity, bytes)
      == Codec.Parse(Codec.Raw, setup.payloadCapacity, tail).After([raw], HEADER_BYTES + |raw.payload|)
    requires var (kind, next) := FrameMeaning(setup, session, raw);
      var end := offset + HEADER_BYTES + |raw.payload|;
      && next.Some? && FramesNamed(setup, next.value, tail, end)
      && Read(setup, session, bytes, offset) == Read(setup, next.value, tail, end).After([Record(setup.id, end, kind)])
    ensures FramesNamed(setup, session, bytes, offset)
  {
    hide Read, Codec.Parse, FrameMeaning, NamesAt, HeldBefore;
    var (kind, next) := FrameMeaning(setup, session, raw);
    var end := offset + HEADER_BYTES + |raw.payload|;
    var rest := Codec.Parse(Codec.Raw, setup.payloadCapacity, tail);
    var first, later := Record(setup.id, end, kind), Read(setup, next.value, tail, end).records;
    Codec.SpelledFront(raw, rest.frames);
    NamesFirst(setup, session, raw, rest.frames, offset, first, later);
    forall i | 0 <= i <= |later| && i <= |rest.frames|
      ensures NamesAt(setup, session, [raw] + rest.frames, offset, [first] + later, i)
    {
      if i > 0 { NamesOn(setup, session, raw, rest.frames, offset, first, later, i - 1); }
    }
    if |later| > 0 {
      HeldOn(setup, session, raw, first, later, |later| - 1);
    }
  }

  lemma FramesNamedLast(setup: Setup, session: Session.SessionState, bytes: seq<byte>, offset: nat, raw: RawEnvelope,
                        tail: seq<byte>)
    requires !session.SessionEnded? && |raw.payload| <= MAX_BODY_BYTES
    requires Codec.Parse(Codec.Raw, setup.payloadCapacity, bytes)
      == Codec.Parse(Codec.Raw, setup.payloadCapacity, tail).After([raw], HEADER_BYTES + |raw.payload|)
    requires Codec.Wired(Codec.Parse(Codec.Raw, setup.payloadCapacity, tail).frames)
    requires var (kind, next) := FrameMeaning(setup, session, raw);
      && next.None?
      && Read(setup, session, bytes, offset)
           == Reading([Record(setup.id, offset + HEADER_BYTES + |raw.payload|, kind)], None)
    ensures FramesNamed(setup, session, bytes, offset)
  {
    MeaningNames(setup, session, raw);
    hide Read, Codec.Parse, FrameMeaning, NamesAt, HeldBefore, Names;
    var first := Record(setup.id, offset + HEADER_BYTES + |raw.payload|, FrameMeaning(setup, session, raw).0);
    assert [first] + [] == [first];
    NamesFirst(setup, session, raw, Codec.Parse(Codec.Raw, setup.payloadCapacity, tail).frames, offset, first, []);
  }

  lemma {:induction false} ReadNamesFrames(setup: Setup, session: Session.SessionState, bytes: seq<byte>, offset: nat)
    requires !session.SessionEnded?
    ensures FramesNamed(setup, session, bytes, offset)
    decreases |bytes|
  {
    hide ParseFront, FrameMeaning, Names;
    var front := ParseFront(AnyLength, setup.payloadCapacity, bytes);
    if front.Complete? {
      Codec.FrameAt(AnyLength, setup.payloadCapacity, bytes);
      var raw, tail := front.frame, bytes[front.Width()..];
      MeaningNames(setup, session, raw);
      Codec.ParseSpells(Codec.Raw, setup.payloadCapacity, tail);
      var (kind, next) := FrameMeaning(setup, session, raw);
      if next.Some? {
        ReadNamesFrames(setup, next.value, tail, offset + front.Width());
        FramesNamedStep(setup, session, bytes, offset, raw, tail);
      } else {
        FramesNamedLast(setup, session, bytes, offset, raw, tail);
      }
    }
  }

  /** Every protocol record of a stream names its own frame, or the refusal that follows the good frames. */
  lemma RecordsNameFrames(setup: Setup, stream: seq<byte>)
    ensures FramesNamed(setup, Session.AwaitingUuid, stream, 0)
  {
    ReadNamesFrames(setup, Session.AwaitingUuid, stream, 0);
  }

  /** The end of a stream that no record ended: clean exactly at a frame boundary, else what is missing. */
  predicate EndNamed(setup: Setup, stream: seq<byte>, end: Record) {
    var frames := Codec.Parse(Codec.Raw, setup.payloadCapacity, stream).frames;
    && Codec.Wired(frames)
    && end.connection == setup.id && end.offset == |stream| && end.kind.Ended?
    && match end.kind.reason
       case CleanEof => stream == Codec.Spelled(frames)
       case Truncated(TruncatedHeader(expected, received)) =>
         && 0 < received < expected == HEADER_BYTES && |stream| == |Codec.Spelled(frames)| + received
       case Truncated(TruncatedPayload(expected, received)) =>
         && received < expected && |stream| == |Codec.Spelled(frames)| + HEADER_BYTES + received
       case _ => false
  }

  /** What a truncated stream lacked: fewer bytes would not have ended its frame, exactly the missing ones would. */
  predicate Lacks(setup: Setup, stream: seq<byte>, error: FinishError, more: seq<byte>) {
    var parsed := Codec.Parse(Codec.Raw, setup.payloadCapacity, stream);
    var longer := Codec.Parse(Codec.Raw, setup.payloadCapacity, stream + more);
    match error
    case TruncatedHeader(expected, received) =>
      |more| < expected - received ==> longer.frames == parsed.frames && longer.end.Open?
    case TruncatedPayload(expected, received) =>
      && (|more| < expected - received ==> longer.frames == parsed.frames && longer.end.Open?)
      && (|more| == expected - received ==>
            && |longer.frames| == |parsed.frames| + 1 && longer.frames[..|parsed.frames|] == parsed.frames
            && |longer.frames[|parsed.frames|].payload| == expected && longer.end == Codec.Open([]))
    case FinishFailed => false
  }

  /** Where a stream stands that no record ended: at the unfinished frame of its parse. */
  lemma StandIsRest(setup: Setup, stream: seq<byte>)
    requires ReadAll(setup, stream).stand.Some?
    ensures Codec.Parse(Codec.Raw, setup.payloadCapacity, stream).end
         == Codec.Open(ReadAll(setup, stream).stand.value.partial)
  {
    hide Codec.Parse, Read;
    Traces.ReadIsTell(setup, Session.AwaitingUuid, stream, 0);
  }

  lemma WholeNamesEnd(setup: Setup, stream: seq<byte>, more: seq<byte>)
    requires ReadAll(setup, stream).stand.Some?
    ensures var whole, records := Whole(setup, stream), ReadAll(setup, stream).records;
      && |whole| == |records| + 1 && whole[..|records|] == records
      && EndNamed(setup, stream, whole[|records|])
      && (whole[|records|].kind.reason != CleanEof ==>
            Lacks(setup, stream, whole[|records|].kind.reason.finish, more))
  {
    hide Codec.Parse, Read, ParseFront, Finish;
    StandIsRest(setup, stream);
    Codec.ParseSpells(Codec.Raw, setup.payloadCapacity, stream);
    var partial := ReadAll(setup, stream).stand.value.partial;
    var spelled := Codec.Spelled(Codec.Parse(Codec.Raw, setup.payloadCapacity, stream).frames);
    assert stream == spelled + partial && spelled + [] == spelled;
    FinishTells(AnyLength, setup.payloadCapacity, partial, more);
    Codec.ParseAppend(Codec.Raw, setup.payloadCapacity, stream, more);
    ParseAfterRest(setup.payloadCapacity, partial + more);
  }

  lemma ParseAfterRest(capacity: nat, bytes: seq<byte>)
    ensures var parsed, front := Codec.Parse(Codec.Raw, capacity, bytes), ParseFront(AnyLength, capacity, bytes);
      && (front.Incomplete? ==> parsed == Codec.Parsed([], Codec.Open(bytes)))
      && (front.Complete? && HEADER_BYTES + |front.frame.payload| == |bytes| ==>
            parsed == Codec.Parsed([front.frame], Codec.Open([])))
  {
    var front := ParseFront(AnyLength, capacity, bytes);
    if front.Complete? {
      assert Codec.Parse(Codec.Raw, capacity, []) == Codec.Parsed([], Codec.Open([]));
    }
  }
}
