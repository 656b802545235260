/** Strict typed conversion of raw envelopes. */
module Envelope {
  import opened Wire

  function ValidateTypedLength(wireType: byte, length: nat): Option<TypedMessageError> {
    if wireType == 0x00 && length != 0 then Some(TerminatePayload)
    else if wireType == 0x01 && length != 16 then Some(UuidLength)
    else if wireType == 0x03 && length != 1 then Some(DtmfLength)
    else if 0x10 <= wireType <= 0x18 && length % 2 != 0 then Some(OddPcmLength)
    else None
  }

  function Typed(raw: RawEnvelope): Result<TypedMessage, TypedMessageError> {
    match ValidateTypedLength(raw.wireType, |raw.payload|)
    case Some(error) => Err(error)
    case None =>
      match Known(raw.wireType)
      case Some(KnownTerminate) => Ok(Terminate)
      case Some(KnownUuid) => Ok(Identity(raw.payload))
      case Some(KnownDtmf) => NewDtmf(raw.payload[0])
      case Some(KnownPcm(rate)) => Ok(Audio(rate, raw.payload))
      case Some(KnownError) => Ok(PeerError(raw.payload))
      case None => Ok(Unknown(raw.wireType, raw.payload))
  }

  function NewDtmf(value: byte): Result<TypedMessage, TypedMessageError> {
    if value < 128 then Ok(Digit(value)) else Err(DtmfNotAscii)
  }

  /** Each refusal names what is wrong with a body of its known type. */
  lemma RefusalNames(raw: RawEnvelope)
    requires Typed(raw).Err?
    ensures var known := Known(raw.wireType);
      && known.Some?
      && match Typed(raw).error
         case TerminatePayload => known.value.KnownTerminate? && raw.payload != []
         case UuidLength => known.value.KnownUuid? && |raw.payload| != 16
         case DtmfLength => known.value.KnownDtmf? && |raw.payload| != 1
         case DtmfNotAscii => known.value.KnownDtmf? && |raw.payload| == 1 && raw.payload[0] >= 128
         case OddPcmLength => known.value.KnownPcm? && |raw.payload| % 2 != 0
  {
  }

  /** Once the declared length passed the header check, only the digit's content can still be refused. */
  lemma ContentFailureIsDtmf(raw: RawEnvelope)
    requires ValidateTypedLength(raw.wireType, |raw.payload|) == None
    ensures Typed(raw).Err? <==> raw.wireType == 0x03 && raw.payload[0] >= 128
    ensures Typed(raw).Err? ==> Typed(raw).error == DtmfNotAscii
  {
  }
}
