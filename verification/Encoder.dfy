/** Bounded encoding of one wire frame, and its inverse relation to typed conversion. */
module Encoder {
  import opened Wire
  import opened Envelope

  datatype EncodeError = OutputTooShort(required: nat, available: nat)

  function RateType(rate: SampleRate): byte {
    match rate
    case Khz8 => 0x10
    case Khz12 => 0x11
    case Khz16 => 0x12
    case Khz24 => 0x13
    case Khz32 => 0x14
    case Khz44_1 => 0x15
    case Khz48 => 0x16
    case Khz96 => 0x17
    case Khz192 => 0x18
  }

  /** The raw envelope that carries a message. */
  function Carrier(message: TypedMessage): RawEnvelope {
    match message
    case Terminate => RawEnvelope(0x00, [])
    case Identity(uuid) => RawEnvelope(0x01, uuid)
    case Digit(digit) => RawEnvelope(0x03, [digit])
    case Audio(rate, payload) => RawEnvelope(RateType(rate), payload)
    case PeerError(payload) => RawEnvelope(0xff, payload)
    case Unknown(wireType, payload) => RawEnvelope(wireType, payload)
  }

  /** The wire layout of one frame: type byte, big-endian length, body. */
  function Frame(raw: RawEnvelope): seq<byte>
    requires |raw.payload| <= MAX_BODY_BYTES
  {
    [raw.wireType, |raw.payload| / 256, |raw.payload| % 256] + raw.payload
  }

  function Encoded(message: TypedMessage): seq<byte>
    requires message.Valid()
  {
    Frame(Carrier(message))
  }

  method Encode(message: TypedMessage, destination: array<byte>) returns (r: Result<nat, EncodeError>)
    requires message.Valid()
    modifies destination
    ensures r.Ok? <==> |Encoded(message)| <= destination.Length
    ensures r.Ok? ==>
      && r.value == |Encoded(message)|
      && destination[..] == Encoded(message) + old(destination[..])[r.value..]
    ensures r.Err? ==>
      && r.error == OutputTooShort(|Encoded(message)|, destination.Length)
      && destination[..] == old(destination[..])
  {
    match message {
      case Terminate => r := WriteFrame(0x00, [], destination);
      case Identity(uuid) => r := WriteFrame(0x01, uuid, destination);
      case Digit(digit) => r := WriteFrame(0x03, [digit], destination);
      case Audio(rate, payload) => r := WriteFrame(RateType(rate), payload, destination);
      case PeerError(payload) => r := WriteFrame(0xff, payload, destination);
      case Unknown(wireType, payload) => r := WriteFrame(wireType, payload, destination);
    }
  }

  method EncodeRaw(raw: RawEnvelope, destination: array<byte>) returns (r: Result<nat, EncodeError>)
    requires |raw.payload| <= MAX_BODY_BYTES
    modifies destination
    ensures r.Ok? <==> |Frame(raw)| <= destination.Length
    ensures r.Ok? ==>
      && r.value == |Frame(raw)|
      && destination[..] == Frame(raw) + old(destination[..])[r.value..]
    ensures r.Err? ==>
      && r.error == OutputTooShort(|Frame(raw)|, destination.Length)
      && destination[..] == old(destination[..])
  {
    r := WriteFrame(raw.wireType, raw.payload, destination);
  }

  method WriteFrame(wireType: byte, payload: seq<byte>, destination: array<byte>)
    returns (r: Result<nat, EncodeError>)
    requires |payload| <= MAX_BODY_BYTES
    modifies destination
    ensures r.Ok? <==> HEADER_BYTES + |payload| <= destination.Length
    ensures r.Ok? ==>
      && r.value == HEADER_BYTES + |payload|
      && destination[..] == Frame(RawEnvelope(wireType, payload)) + old(destination[..])[r.value..]
    ensures r.Err? ==>
      && r.error == OutputTooShort(HEADER_BYTES + |payload|, destination.Length)
      && destination[..] == old(destination[..])
  {
    var required := HEADER_BYTES + |payload|;
    if destination.Length < required {
      return Err(OutputTooShort(required, destination.Length));
    }
    destination[0] := wireType;
    destination[1] := |payload| / 256;
    destination[2] := |payload| % 256;
    forall i | 0 <= i < |payload| {
      destination[HEADER_BYTES + i] := payload[i];
    }
    return Ok(required);
  }

  /** Typing what was encoded gives the message back. */
  lemma TypedInvertsCarrier(message: TypedMessage)
    requires message.Valid()
    ensures Typed(Carrier(message)) == Ok(message)
  {
  }

  /** Whatever typing accepts is valid, and re-encoding it reproduces the exact bytes. */
  lemma CarrierInvertsTyped(raw: RawEnvelope)
    requires |raw.payload| <= MAX_BODY_BYTES
    requires Typed(raw).Ok?
    ensures Typed(raw).value.Valid()
    ensures Carrier(Typed(raw).value) == raw
    ensures Encoded(Typed(raw).value) == Frame(raw)
  {
  }

  /** Typing refuses exactly the envelopes that no valid message has. */
  lemma RefusedIff(raw: RawEnvelope)
    requires |raw.payload| <= MAX_BODY_BYTES
    ensures Typed(raw).Err? <==> forall message: TypedMessage :: message.Valid() ==> Carrier(message) != raw
  {
    forall message: TypedMessage | message.Valid() && Carrier(message) == raw
      ensures Typed(raw).Ok?
    {
      TypedInvertsCarrier(message);
    }
    if Typed(raw).Ok? {
      CarrierInvertsTyped(raw);
    }
  }

  /** Encoding loses nothing: equal frames come from equal messages. */
  lemma EncodedInjective(a: TypedMessage, b: TypedMessage)
    requires a.Valid() && b.Valid()
    requires Encoded(a) == Encoded(b)
    ensures a == b
  {
    var ra, rb := Carrier(a), Carrier(b);
    assert Frame(ra)[HEADER_BYTES..] == ra.payload && Frame(rb)[HEADER_BYTES..] == rb.payload;
    assert Frame(ra)[0] == Frame(rb)[0];
    TypedInvertsCarrier(a);
    TypedInvertsCarrier(b);
  }
}
