/** The reference reading of one connection's byte stream: parse, type, apply the session policy. */
module Meaning {
  import opened Wire
  import opened Records
  import Framing
  import Envelope
  import Session

  /** What one connection is set up with. */
  datatype Setup = Setup(
    id: ConnectionId,
    payloadCapacity: nat,
    profile: Session.IncomingProfile,
    budgetCapacity: nat)

  /** Where an unfinished stream stands. */
  datatype Stand = Stand(session: Session.SessionState, partial: seq<byte>)

  /** The protocol records of a stream, and where it stands unless they end it. */
  datatype Reading = Reading(records: seq<Record>, stand: Option<Stand>)
  {
    function After(first: seq<Record>): Reading {
      Reading(first + records, stand)
    }
  }

  function KindOf(event: Session.IncomingEvent): RecordKind {
    match event
    case Started(uuid) => Started(uuid)
    case AudioEvent(uuid, rate, payload) => AudioBytes(uuid, rate, payload)
    case DtmfEvent(uuid, digit) => Dtmf(uuid, digit)
    case Ended(identity, EndTerminate) => Ended(identity, Terminated)
    case Ended(identity, EndPeerError(payload)) => Ended(identity, PeerFailure(payload))
    case Ended(identity, EndOfInput) => Ended(identity, CleanEof)
  }

  /** What one complete frame means: its record, and the session that follows unless it ended. */
  function FrameMeaning(setup: Setup, session: Session.SessionState, raw: RawEnvelope)
    : (RecordKind, Option<Session.SessionState>)
  {
    match Envelope.Typed(raw)
    case Err(error) => (Ended(session.Identity(), InvalidMessage(error)), None)
    case Ok(message) =>
      var (next, verdict) := Session.Receive(setup.profile, session, message);
      match verdict
      case Err(error) => (Ended(session.Identity(), Policy(error)), None)
      case Ok(event) => (KindOf(event), if next.SessionEnded? then None else Some(next))
  }

  /** Reads `bytes`, of which the first stands at stream position `offset`. */
  function Read(setup: Setup, session: Session.SessionState, bytes: seq<byte>, offset: nat): Reading
    decreases |bytes|, 1
  {
    match Framing.ParseFront(Framing.AnyLength, setup.payloadCapacity, bytes)
    case Incomplete => Reading([], Some(Stand(session, bytes)))
    case Refused(error) =>
      Reading([Record(setup.id, offset + HEADER_BYTES, Ended(session.Identity(), Decode(error)))], None)
    case Complete(raw) =>
      var width := HEADER_BYTES + |raw.payload|;
      ReadFrame(setup, session, raw, bytes[width..], offset + width)
  }

  /** Reads on after the frame `raw`, which ends at stream position `end`. */
  function ReadFrame(setup: Setup, session: Session.SessionState, raw: RawEnvelope, rest: seq<byte>, end: nat): Reading
    decreases |rest|, 2
  {
    var (kind, next) := FrameMeaning(setup, session, raw);
    var record := Record(setup.id, end, kind);
    match next
    case None => Reading([record], None)
    case Some(session') => Read(setup, session', rest, end).After([record])
  }

  function ReadAll(setup: Setup, stream: seq<byte>): Reading {
    Read(setup, Session.AwaitingUuid, stream, 0)
  }

  /** The record of a transport end at a stream that no protocol record ended. */
  function EofRecord(setup: Setup, stand: Stand, length: nat): Record {
    Record(setup.id, length, Ended(stand.session.Identity(),
      match Framing.Finish(Framing.Live(stand.partial))
      case None => CleanEof
      case Some(error) => Truncated(error)))
  }

  /** Everything a stream means once the peer closes it. */
  function Whole(setup: Setup, stream: seq<byte>): seq<Record> {
    var reading := ReadAll(setup, stream);
    match reading.stand
    case None => reading.records
    case Some(stand) => reading.records + [EofRecord(setup, stand, |stream|)]
  }
}
