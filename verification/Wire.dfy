/** Wire values: type bytes, declared rates, typed messages and their validity. */
module Wire {
  type byte = b: int | 0 <= b < 256 witness 0

  const HEADER_BYTES: nat := 3
  const MAX_BODY_BYTES: nat := 65535
  const U64_MAX: nat := 0xFFFF_FFFF_FFFF_FFFF

  datatype Option<+T> = None | Some(value: T)

  datatype Result<+T, +E> = Ok(value: T) | Err(error: E)

  type Uuid = id: seq<byte> | |id| == 16 witness [0, 0, 0, 0, 0, 0, 0, 0, 0, 0, 0, 0, 0, 0, 0, 0]

  datatype SampleRate = Khz8 | Khz12 | Khz16 | Khz24 | Khz32 | Khz44_1 | Khz48 | Khz96 | Khz192

  function Hertz(rate: SampleRate): nat {
    match rate
    case Khz8 => 8_000
    case Khz12 => 12_000
    case Khz16 => 16_000
    case Khz24 => 24_000
    case Khz32 => 32_000
    case Khz44_1 => 44_100
    case Khz48 => 48_000
    case Khz96 => 96_000
    case Khz192 => 192_000
  }

  /** A documented meaning of a type byte; the nine PCM types share one constructor. */
  datatype KnownWireType = KnownTerminate | KnownUuid | KnownDtmf | KnownPcm(rate: SampleRate) | KnownError

  function Known(wireType: byte): Option<KnownWireType> {
    match wireType
    case 0x00 => Some(KnownTerminate)
    case 0x01 => Some(KnownUuid)
    case 0x03 => Some(KnownDtmf)
    case 0x10 => Some(KnownPcm(Khz8))
    case 0x11 => Some(KnownPcm(Khz12))
    case 0x12 => Some(KnownPcm(Khz16))
    case 0x13 => Some(KnownPcm(Khz24))
    case 0x14 => Some(KnownPcm(Khz32))
    case 0x15 => Some(KnownPcm(Khz44_1))
    case 0x16 => Some(KnownPcm(Khz48))
    case 0x17 => Some(KnownPcm(Khz96))
    case 0x18 => Some(KnownPcm(Khz192))
    case 0xff => Some(KnownError)
    case _ => None
  }

  datatype TypedMessage =
    | Terminate
    | Identity(uuid: Uuid)
    | Digit(digit: byte)
    | Audio(rate: SampleRate, payload: seq<byte>)
    | PeerError(payload: seq<byte>)
    | Unknown(wireType: byte, payload: seq<byte>)
  {
    /** What the public constructors of payloads, digits and unknown types admit. */
    predicate Valid() {
      match this
      case Terminate => true
      case Identity(_) => true
      case Digit(d) => d < 128
      case Audio(_, p) => |p| <= MAX_BODY_BYTES && |p| % 2 == 0
      case PeerError(p) => |p| <= MAX_BODY_BYTES
      case Unknown(t, p) => |p| <= MAX_BODY_BYTES && Known(t) == None
    }
  }

  datatype TypedMessageError = TerminatePayload | UuidLength | DtmfLength | DtmfNotAscii | OddPcmLength

  /** One undecoded frame: any type byte with its body. */
  datatype RawEnvelope = RawEnvelope(wireType: byte, payload: seq<byte>)

  function Flatten<T>(parts: seq<seq<T>>): seq<T> {
    if parts == [] then [] else parts[0] + Flatten(parts[1..])
  }
}
