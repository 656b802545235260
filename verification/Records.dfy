/** Observations a worker hands to its consumer, without their clock reading. */
module Records {
  import opened Wire
  import Framing
  import Session

  datatype ConnectionId = ConnectionId(instance: nat, sequence: nat)

  datatype BudgetError = TooLarge(required: nat, capacity: nat) | Full(required: nat, available: nat)

  datatype EndReason =
    | CleanEof
    | Terminated
    | PeerFailure(bytes: seq<byte>)
    | InvalidMessage(message: TypedMessageError)
    | Decode(decode: Framing.DecodeError)
    | Truncated(finish: Framing.FinishError)
    | Policy(policy: Session.IncomingSessionError)
    | Transport
    | ResourceRefused(budget: BudgetError)
    | OffsetExhausted

  datatype RecordKind =
    | Connected
    | WireBytes(bytes: seq<byte>)
    | Started(uuid: Uuid)
    | AudioBytes(uuid: Uuid, rate: SampleRate, bytes: seq<byte>)
    | Dtmf(uuid: Uuid, digit: byte)
    | Ended(identity: Option<Uuid>, reason: EndReason)

  datatype Record = Record(connection: ConnectionId, offset: nat, kind: RecordKind)
  {
    /** Protocol records interpret the stream; the others report admission and raw bytes. */
    predicate Protocol() {
      !kind.Connected? && !kind.WireBytes?
    }
  }

  /** The raw bytes that a sequence of records carries. */
  function RawBytes(records: seq<Record>): seq<byte> {
    if records == [] then []
    else
      var last := records[|records| - 1];
      RawBytes(records[..|records| - 1]) + if last.kind.WireBytes? then last.kind.bytes else []
  }

  function ProtocolOf(records: seq<Record>): seq<Record> {
    if records == [] then []
    else
      var last := records[|records| - 1];
      ProtocolOf(records[..|records| - 1]) + if last.Protocol() then [last] else []
  }

  lemma Appended(records: seq<Record>, record: Record)
    ensures RawBytes(records + [record]) == RawBytes(records) + if record.kind.WireBytes? then record.kind.bytes else []
    ensures ProtocolOf(records + [record]) == ProtocolOf(records) + if record.Protocol() then [record] else []
  {
    assert (records + [record])[..|records|] == records;
  }

  /** A prefix of the records tells a prefix of everything. */
  lemma {:induction false} PrefixMeans(shorter: seq<Record>, longer: seq<Record>)
    requires shorter <= longer
    ensures RawBytes(shorter) <= RawBytes(longer) && ProtocolOf(shorter) <= ProtocolOf(longer)
    decreases |longer|
  {
    if |shorter| < |longer| {
      PrefixMeans(shorter, longer[..|longer| - 1]);
    } else {
      assert shorter == longer;
    }
  }

  /** The records of one connection, in their order. */
  function Of(records: seq<Record>, id: ConnectionId): seq<Record> {
    if records == [] then []
    else
      var last := records[|records| - 1];
      Of(records[..|records| - 1], id) + if last.connection == id then [last] else []
  }

  lemma {:induction false} PrefixOf(shorter: seq<Record>, longer: seq<Record>, id: ConnectionId)
    requires shorter <= longer
    ensures Of(shorter, id) <= Of(longer, id)
    decreases |longer|
  {
    if |shorter| < |longer| {
      PrefixOf(shorter, longer[..|longer| - 1], id);
    } else {
      assert shorter == longer;
    }
  }

  lemma {:induction false} OfMore(records: seq<Record>, record: Record, id: ConnectionId)
    ensures Of(records + [record], id) == Of(records, id) + if record.connection == id then [record] else []
  {
    assert (records + [record])[..|records|] == records;
  }
}
