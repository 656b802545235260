/** The strict decoder, the reference parse of a whole stream, and the theorems that join them. */
module Codec {
  import opened Wire
  import opened Framing
  import Envelope
  import Encoder

  /** Raw decoding keeps every envelope; strict decoding admits only typed ones. */
  datatype Policy = Raw | Strict
  {
    function Rule(): HeaderRule {
      if Strict? then KnownLength else AnyLength
    }

    function ContentError(raw: RawEnvelope): Option<DecodeError> {
      if Strict? && Envelope.Typed(raw).Err? then Some(InvalidContent(Envelope.Typed(raw).error)) else None
    }
  }

  /** One decoder call: a framer call, then the content check. */
  function Decode(policy: Policy, capacity: nat, before: Progress, input: seq<byte>): (fed: Fed)
    requires Settled(policy.Rule(), capacity, before)
    ensures fed.consumed <= |input|
    ensures Settled(policy.Rule(), capacity, fed.after)
    ensures fed.outcome.Frame? ==> 0 < fed.consumed && fed.after == Live([])
  {
    var fed := Advance(policy.Rule(), capacity, before, input);
    match fed.outcome
    case Frame(raw) =>
      if policy.ContentError(raw).Some? then Fed(Error(policy.ContentError(raw).value), Broken, fed.consumed) else fed
    case _ => fed
  }

  /** The typed streaming decoder. */
  class Decoder {
    const framer: Framer

    ghost predicate Ready()
      reads this, framer, framer.header, framer.scratch
    {
      framer.Ready(KnownLength)
    }

    constructor (scratch: array<byte>)
      ensures framer.scratch == scratch && fresh(framer) && fresh(framer.header)
      ensures Ready() && framer.Abstract() == Live([])
    {
      framer := new Framer(scratch);
    }

    method Feed(input: seq<byte>) returns (r: Result<Option<TypedMessage>, DecodeError>, consumed: nat)
      requires Ready()
      modifies framer, framer.header, framer.scratch
      ensures Ready()
      ensures var fed := Decode(Strict, framer.scratch.Length, old(framer.Abstract()), input);
        && framer.Abstract() == fed.after
        && consumed == fed.consumed
        && match fed.outcome
           case NeedInput => r == Ok(None)
           case Error(error) => r == Err(error)
           case Frame(raw) => r.Ok? && r.value.Some? && Envelope.Typed(raw) == Ok(r.value.value)
    {
      var outcome;
      outcome, consumed := framer.Feed(input, KnownLength);
      match outcome {
        case NeedInput => r := Ok(None);
        case Error(error) => r := Err(error);
        case Frame(raw) =>
          var typed := Envelope.Typed(raw);
          if typed.Ok? {
            r := Ok(Some(typed.value));
          } else {
            framer.state := FailedState;
            r := Err(InvalidContent(typed.error));
          }
      }
    }
  }

  /** How a stream stops: an unfinished frame that more bytes may complete, or an error at a byte position. */
  datatype End = Open(rest: seq<byte>) | Fault(error: DecodeError, at: int)
  {
    function Shift(offset: int): End {
      if Open? then this else Fault(error, at + offset)
    }
  }

  datatype Parsed = Parsed(frames: seq<RawEnvelope>, end: End)
  {
    function After(first: seq<RawEnvelope>, offset: int): Parsed {
      Parsed(first + frames, end.Shift(offset))
    }
  }

  lemma AfterNothing(parsed: Parsed, offset: int)
    requires offset == 0 || parsed.end.Open?
    ensures parsed.After([], offset) == parsed
  {
    assert [] + parsed.frames == parsed.frames;
  }

  lemma AfterAfter(parsed: Parsed, first: seq<RawEnvelope>, second: seq<RawEnvelope>, x: int, y: int)
    ensures parsed.After(second, y).After(first, x) == parsed.After(first + second, x + y)
  {
    assert first + (second + parsed.frames) == (first + second) + parsed.frames;
  }

  lemma Chained(parsed: Parsed, frames: seq<RawEnvelope>, chunk: int, partial: int, open: int)
    ensures parsed.After([], -open).After(frames, chunk)
      == parsed.After(frames, partial + chunk - open).After([], -partial)
  {
    AfterAfter(parsed, frames, [], chunk, -open);
    AfterAfter(parsed, [], frames, -partial, partial + chunk - open);
    assert frames + [] == [] + frames;
  }

  /** Reference reading of a stream that is wholly present. */
  function Parse(policy: Policy, capacity: nat, bytes: seq<byte>): (parsed: Parsed)
    decreases |bytes|
  {
    match ParseFront(policy.Rule(), capacity, bytes)
    case Incomplete => Parsed([], Open(bytes))
    case Refused(error) => Parsed([], Fault(error, HEADER_BYTES))
    case Complete(raw) =>
      var width := HEADER_BYTES + |raw.payload|;
      if policy.ContentError(raw).Some? then Parsed([], Fault(policy.ContentError(raw).value, width))
      else Parse(policy, capacity, bytes[width..]).After([raw], width)
  }

  /** A call decides what the front of all bytes decides. */
  lemma DecodeIsFront(policy: Policy, capacity: nat, partial: seq<byte>, input: seq<byte>)
    requires Settled(policy.Rule(), capacity, Live(partial))
    ensures var fed := Decode(policy, capacity, Live(partial), input);
      match ParseFront(policy.Rule(), capacity, partial + input)
      case Incomplete => fed.outcome.NeedInput? && fed.after == Live(partial + input)
      case Refused(error) => fed.outcome == Error(error) && fed.consumed + |partial| == HEADER_BYTES
      case Complete(raw) =>
        && fed.consumed + |partial| == HEADER_BYTES + |raw.payload|
        && fed.outcome == match policy.ContentError(raw)
                          case Some(error) => Error(error)
                          case None => Frame(raw)
  {
    hide ParseFront, HeaderError, Settled;
  }

  /** What a caller collects by calling the decoder on one chunk until it needs more input. */
  function Drain(policy: Policy, capacity: nat, before: Progress, input: seq<byte>): (parsed: Parsed)
    requires before.Live? && Settled(policy.Rule(), capacity, before)
    ensures parsed.end.Open? ==> Settled(policy.Rule(), capacity, Live(parsed.end.rest))
    decreases |input|
  {
    var fed := Decode(policy, capacity, before, input);
    match fed.outcome
    case NeedInput => Parsed([], Open(fed.after.partial))
    case Error(error) => Parsed([], Fault(error, fed.consumed))
    case Frame(raw) => Drain(policy, capacity, fed.after, input[fed.consumed..]).After([raw], fed.consumed)
  }

  /** The same over successive chunks, which may be empty; the first error ends the stream. */
  function DrainAll(policy: Policy, capacity: nat, before: Progress, chunks: seq<seq<byte>>): Parsed
    requires before.Live? && Settled(policy.Rule(), capacity, before)
    decreases |chunks|
  {
    if chunks == [] then Parsed([], Open(before.partial))
    else
      var head := Drain(policy, capacity, before, chunks[0]);
      match head.end
      case Fault(_, _) => head
      case Open(rest) => DrainAll(policy, capacity, Live(rest), chunks[1..]).After(head.frames, |chunks[0]|)
  }

  lemma {:induction false} DrainIsParse(policy: Policy, capacity: nat, partial: seq<byte>, input: seq<byte>)
    requires Settled(policy.Rule(), capacity, Live(partial))
    ensures Drain(policy, capacity, Live(partial), input)
         == Parse(policy, capacity, partial + input).After([], -|partial|)
    decreases |input|
  {
    hide ParseFront, Settled, Advance, Decode;
    DecodeIsFront(policy, capacity, partial, input);
    var fed := Decode(policy, capacity, Live(partial), input);
    if fed.outcome.Frame? {
      var rest := input[fed.consumed..];
      assert (partial + input)[fed.consumed + |partial|..] == rest;
      DrainIsParse(policy, capacity, [], rest);
      assert [] + rest == rest;
      AfterNothing(Parse(policy, capacity, rest), 0);
      AfterAfter(Parse(policy, capacity, rest), [], [fed.outcome.raw], -|partial|, fed.consumed + |partial|);
    }
  }

  /** A decided prefix stays decided; an open one continues from its unfinished frame. */
  lemma {:induction false} ParseAppend(policy: Policy, capacity: nat, bytes: seq<byte>, more: seq<byte>)
    ensures var parsed := Parse(policy, capacity, bytes);
      Parse(policy, capacity, bytes + more) ==
        match parsed.end
        case Fault(_, _) => parsed
        case Open(rest) => Parse(policy, capacity, rest + more).After(parsed.frames, |bytes| - |rest|)
    decreases |bytes|
  {
    hide ParseFront;
    var front := ParseFront(policy.Rule(), capacity, bytes);
    if front.Incomplete? {
      AfterNothing(Parse(policy, capacity, bytes + more), 0);
      return;
    }
    FrontStable(policy.Rule(), capacity, bytes, more);
    if front.Complete? && policy.ContentError(front.frame).None? {
      var raw, width := front.frame, front.Width();
      var tail := bytes[width..];
      assert (bytes + more)[width..] == tail + more;
      ParseAppend(policy, capacity, tail, more);
      var rest := Parse(policy, capacity, tail);
      if rest.end.Open? {
        var open := rest.end.rest;
        AfterAfter(Parse(policy, capacity, open + more), [raw], rest.frames, width, |tail| - |open|);
      }
    }
  }

  /** Draining chunk by chunk gives what parsing the whole gives, counted from the first new byte. */
  predicate DrainsLikeParse(policy: Policy, capacity: nat, partial: seq<byte>, chunks: seq<seq<byte>>)
    requires Settled(policy.Rule(), capacity, Live(partial))
  {
    DrainAll(policy, capacity, Live(partial), chunks)
      == Parse(policy, capacity, partial + Flatten(chunks)).After([], -|partial|)
  }

  lemma DrainsOneMore(policy: Policy, capacity: nat, partial: seq<byte>, chunks: seq<seq<byte>>)
    requires chunks != [] && Settled(policy.Rule(), capacity, Live(partial))
    requires var end := Drain(policy, capacity, Live(partial), chunks[0]).end;
      end.Open? ==> DrainsLikeParse(policy, capacity, end.rest, chunks[1..])
    ensures DrainsLikeParse(policy, capacity, partial, chunks)
  {
    hide ParseFront, Parse, Drain;
    var chunk, rest := chunks[0], Flatten(chunks[1..]);
    DrainIsParse(policy, capacity, partial, chunk);
    ParseAppend(policy, capacity, partial + chunk, rest);
    var whole := partial + Flatten(chunks);
    assert whole == (partial + chunk) + rest;
    var head := Parse(policy, capacity, partial + chunk);
    var drained := Drain(policy, capacity, Live(partial), chunk);
    assert drained.frames == head.frames;
    if head.end.Open? {
      var open := head.end.rest;
      var tail := Parse(policy, capacity, open + rest);
      assert DrainAll(policy, capacity, Live(partial), chunks) == tail.After([], -|open|).After(head.frames, |chunk|);
      assert Parse(policy, capacity, whole) == tail.After(head.frames, |partial| + |chunk| - |open|);
      Chained(tail, head.frames, |chunk|, |partial|, |open|);
    }
  }

  /** Fragmentation never matters: frames, error, position and unfinished rest are those of the whole stream. */
  lemma {:induction false} FragmentationInvariance(policy: Policy, capacity: nat, partial: seq<byte>,
                                                   chunks: seq<seq<byte>>)
    requires Settled(policy.Rule(), capacity, Live(partial))
    ensures DrainsLikeParse(policy, capacity, partial, chunks)
    decreases |chunks|
  {
    if chunks == [] {
      assert partial + Flatten(chunks) == partial;
      AfterNothing(Parse(policy, capacity, partial), -|partial|);
    } else {
      hide ParseFront, Parse, DrainsLikeParse;
      var end := Drain(policy, capacity, Live(partial), chunks[0]).end;
      if end.Open? {
        FragmentationInvariance(policy, capacity, end.rest, chunks[1..]);
      }
      DrainsOneMore(policy, capacity, partial, chunks);
    }
  }

  /** Two ways of cutting one stream cannot be told apart, by frames, error, position or finish result. */
  lemma CutsAgree(policy: Policy, capacity: nat, left: seq<seq<byte>>, right: seq<seq<byte>>)
    requires Flatten(left) == Flatten(right)
    ensures DrainAll(policy, capacity, Live([]), left) == DrainAll(policy, capacity, Live([]), right)
  {
    FragmentationInvariance(policy, capacity, [], left);
    FragmentationInvariance(policy, capacity, [], right);
  }

  predicate Wired(frames: seq<RawEnvelope>) {
    forall raw <- frames :: |raw.payload| <= MAX_BODY_BYTES
  }

  /** The bytes of frames that follow each other on the wire. */
  function Spelled(frames: seq<RawEnvelope>): seq<byte>
    requires Wired(frames)
  {
    if frames == [] then [] else Encoder.Frame(frames[0]) + Spelled(frames[1..])
  }

  lemma FrameAt(rule: HeaderRule, capacity: nat, bytes: seq<byte>)
    requires ParseFront(rule, capacity, bytes).Complete?
    ensures var raw := ParseFront(rule, capacity, bytes).frame;
      && |raw.payload| <= MAX_BODY_BYTES && |raw.payload| <= capacity
      && HEADER_BYTES + |raw.payload| <= |bytes|
      && bytes == Encoder.Frame(raw) + bytes[HEADER_BYTES + |raw.payload|..]
  {
  }

  /** What follows an encoded frame never matters; the header alone decides whether it is refused, and why. */
  lemma FrontOfFrame(rule: HeaderRule, capacity: nat, raw: RawEnvelope, rest: seq<byte>)
    requires |raw.payload| <= MAX_BODY_BYTES
    ensures var front := ParseFront(rule, capacity, Encoder.Frame(raw) + rest);
      var invalid := Envelope.ValidateTypedLength(raw.wireType, |raw.payload|);
      if rule.KnownLength? && invalid.Some? then front == Refused(InvalidLength(invalid.value))
      else if |raw.payload| <= capacity then front == Complete(raw)
      else front == Refused(ResourceLimit(|raw.payload|, capacity))
  {
    var bytes := Encoder.Frame(raw) + rest;
    assert BodyLength(bytes) == |raw.payload|;
    assert bytes[HEADER_BYTES..HEADER_BYTES + |raw.payload|] == raw.payload;
  }

  /** The frames of a parse spell a prefix of its stream, and what stays open is the rest. */
  predicate Spells(policy: Policy, capacity: nat, bytes: seq<byte>) {
    var parsed := Parse(policy, capacity, bytes);
    && Wired(parsed.frames) && Spelled(parsed.frames) <= bytes
    && (parsed.end.Open? ==>
          && bytes == Spelled(parsed.frames) + parsed.end.rest
          && ParseFront(policy.Rule(), capacity, parsed.end.rest).Incomplete?)
  }

  lemma {:induction false} ParseSpells(policy: Policy, capacity: nat, bytes: seq<byte>)
    ensures Spells(policy, capacity, bytes)
    decreases |bytes|
  {
    hide ParseFront;
    var front := ParseFront(policy.Rule(), capacity, bytes);
    if front.Complete? && policy.ContentError(front.frame).None? {
      FrameAt(policy.Rule(), capacity, bytes);
      var raw, tail := front.frame, bytes[front.Width()..];
      ParseSpells(policy, capacity, tail);
      SpelledStep(policy, capacity, bytes, raw, tail);
    }
  }

  lemma SpelledFront(raw: RawEnvelope, rest: seq<RawEnvelope>)
    requires |raw.payload| <= MAX_BODY_BYTES && Wired(rest)
    ensures Wired([raw] + rest) && Spelled([raw] + rest) == Encoder.Frame(raw) + Spelled(rest)
  {
    assert ([raw] + rest)[1..] == rest;
  }

  lemma SpelledStep(policy: Policy, capacity: nat, bytes: seq<byte>, raw: RawEnvelope, tail: seq<byte>)
    requires |raw.payload| <= MAX_BODY_BYTES && bytes == Encoder.Frame(raw) + tail
    requires Parse(policy, capacity, bytes) == Parse(policy, capacity, tail).After([raw], |bytes| - |tail|)
    requires Spells(policy, capacity, tail)
    ensures Spells(policy, capacity, bytes)
  {
    hide Parse, ParseFront, Encoder.Frame, Spelled, Wired;
    var rest := Parse(policy, capacity, tail);
    SpelledFront(raw, rest.frames);
    var first, later := Encoder.Frame(raw), Spelled(rest.frames);
    var left := tail[|later|..];
    assert tail == later + left;
    assert bytes == (first + later) + left;
  }

  /** Why a stream is refused, read off the bytes after its good frames; a raw decoder refuses for size alone. */
  predicate FaultNamed(policy: Policy, capacity: nat, rest: seq<byte>, error: DecodeError, at: int) {
    && |rest| >= HEADER_BYTES
    && match error
       case InvalidLength(detail) =>
         && policy.Strict? && at == HEADER_BYTES
         && Envelope.ValidateTypedLength(rest[0], BodyLength(rest)) == Some(detail)
       case ResourceLimit(required, limit) =>
         && at == HEADER_BYTES && limit == capacity && required == BodyLength(rest) > capacity
         && (policy.Strict? ==> Envelope.ValidateTypedLength(rest[0], BodyLength(rest)) == None)
       case InvalidContent(detail) =>
         && policy.Strict? && detail == DtmfNotAscii
         && Known(rest[0]) == Some(KnownDtmf) && BodyLength(rest) == 1
         && at == HEADER_BYTES + 1 <= |rest| && rest[HEADER_BYTES] >= 128
       case Failed => false
  }

  lemma FrontFault(policy: Policy, capacity: nat, bytes: seq<byte>)
    requires var parsed := Parse(policy, capacity, bytes); parsed.frames == [] && parsed.end.Fault?
    requires !ParseFront(policy.Rule(), capacity, bytes).Complete?
      || policy.ContentError(ParseFront(policy.Rule(), capacity, bytes).frame).Some?
    ensures var end := Parse(policy, capacity, bytes).end; FaultNamed(policy, capacity, bytes, end.error, end.at)
  {
    var front := ParseFront(policy.Rule(), capacity, bytes);
    if front.Complete? {
      Envelope.ContentFailureIsDtmf(front.frame);
    }
  }

  predicate FaultAfter(policy: Policy, capacity: nat, bytes: seq<byte>, start: nat, error: DecodeError, at: int) {
    start <= |bytes| && FaultNamed(policy, capacity, bytes[start..], error, at - start)
  }

  lemma FaultShifts(policy: Policy, capacity: nat, bytes: seq<byte>, tail: seq<byte>, width: nat,
                    rest: Parsed, parsed: Parsed)
    requires width <= |bytes| && tail == bytes[width..]
    requires Wired(rest.frames) && Wired(parsed.frames) && |Spelled(parsed.frames)| == width + |Spelled(rest.frames)|
    requires rest.end.Fault? && parsed.end == rest.end.Shift(width)
    requires FaultAfter(policy, capacity, tail, |Spelled(rest.frames)|, rest.end.error, rest.end.at)
    ensures FaultAfter(policy, capacity, bytes, |Spelled(parsed.frames)|, parsed.end.error, parsed.end.at)
  {
    hide FaultNamed, Wired, Spelled;
    var start := |Spelled(rest.frames)|;
    assert bytes[width + start..] == tail[start..];
  }

  /** The parse is refused, and the bytes after its good frames say why. */
  predicate NamesFault(policy: Policy, capacity: nat, bytes: seq<byte>) {
    var parsed := Parse(policy, capacity, bytes);
    && parsed.end.Fault? && Wired(parsed.frames)
    && FaultAfter(policy, capacity, bytes, |Spelled(parsed.frames)|, parsed.end.error, parsed.end.at)
  }

  lemma {:induction false} FaultNames(policy: Policy, capacity: nat, bytes: seq<byte>)
    requires Parse(policy, capacity, bytes).end.Fault?
    ensures NamesFault(policy, capacity, bytes)
    decreases |bytes|
  {
    hide ParseFront, FaultNamed, Spelled, Wired, NamesFault;
    var front := ParseFront(policy.Rule(), capacity, bytes);
    if front.Complete? && policy.ContentError(front.frame).None? {
      FrameAt(policy.Rule(), capacity, bytes);
      var raw, tail := front.frame, bytes[front.Width()..];
      FaultNames(policy, capacity, tail);
      FaultLater(policy, capacity, bytes, raw, tail);
    } else {
      FaultFirst(policy, capacity, bytes);
    }
  }

  lemma FaultFirst(policy: Policy, capacity: nat, bytes: seq<byte>)
    requires Parse(policy, capacity, bytes).end.Fault?
    requires !ParseFront(policy.Rule(), capacity, bytes).Complete?
      || policy.ContentError(ParseFront(policy.Rule(), capacity, bytes).frame).Some?
    ensures NamesFault(policy, capacity, bytes)
  {
    hide ParseFront, FaultNamed;
    FrontFault(policy, capacity, bytes);
    assert bytes[0..] == bytes;
  }

  lemma FaultLater(policy: Policy, capacity: nat, bytes: seq<byte>, raw: RawEnvelope, tail: seq<byte>)
    requires |raw.payload| <= MAX_BODY_BYTES && bytes == Encoder.Frame(raw) + tail
    requires Parse(policy, capacity, bytes) == Parse(policy, capacity, tail).After([raw], |bytes| - |tail|)
    requires NamesFault(policy, capacity, tail)
    ensures NamesFault(policy, capacity, bytes)
  {
    hide Parse, Encoder.Frame, Spelled, Wired, FaultAfter;
    var rest, parsed := Parse(policy, capacity, tail), Parse(policy, capacity, bytes);
    SpelledFront(raw, rest.frames);
    FaultShifts(policy, capacity, bytes, tail, |bytes| - |tail|, rest, parsed);
  }

  predicate AllValid(messages: seq<TypedMessage>, capacity: nat) {
    forall m <- messages :: m.Valid() && |Encoder.Carrier(m).payload| <= capacity
  }

  function EncodeAll(messages: seq<TypedMessage>, capacity: nat): seq<byte>
    requires AllValid(messages, capacity)
  {
    if messages == [] then [] else Encoder.Encoded(messages[0]) + EncodeAll(messages[1..], capacity)
  }

  predicate AllTyped(frames: seq<RawEnvelope>) {
    forall raw <- frames :: Envelope.Typed(raw).Ok?
  }

  function Messages(frames: seq<RawEnvelope>): seq<TypedMessage>
    requires AllTyped(frames)
  {
    seq(|frames|, i requires 0 <= i < |frames| => Envelope.Typed(frames[i]).value)
  }

  lemma MessagesCons(raw: RawEnvelope, frames: seq<RawEnvelope>)
    requires Envelope.Typed(raw).Ok? && AllTyped(frames)
    ensures AllTyped([raw] + frames)
    ensures Messages([raw] + frames) == [Envelope.Typed(raw).value] + Messages(frames)
  {
    hide Envelope.Typed;
  }

  lemma EncodeAllCons(message: TypedMessage, messages: seq<TypedMessage>, capacity: nat)
    requires message.Valid() && |Encoder.Carrier(message).payload| <= capacity
    requires AllValid(messages, capacity)
    ensures AllValid([message] + messages, capacity)
    ensures EncodeAll([message] + messages, capacity) == Encoder.Encoded(message) + EncodeAll(messages, capacity)
  {
    hide Encoder.Encoded, TypedMessage.Valid, Encoder.Carrier;
    assert ([message] + messages)[1..] == messages;
  }

  lemma ParseOneEncoded(capacity: nat, message: TypedMessage, rest: seq<byte>)
    requires message.Valid() && |Encoder.Carrier(message).payload| <= capacity
    ensures Parse(Strict, capacity, Encoder.Encoded(message) + rest)
         == Parse(Strict, capacity, rest).After([Encoder.Carrier(message)], |Encoder.Encoded(message)|)
  {
    var raw := Encoder.Carrier(message);
    var bytes := Encoder.Encoded(message) + rest;
    Encoder.TypedInvertsCarrier(message);
    assert bytes[HEADER_BYTES..HEADER_BYTES + |raw.payload|] == raw.payload;
    assert bytes[HEADER_BYTES + |raw.payload|..] == rest;
    assert BodyLength(bytes) == |raw.payload|;
  }

  lemma {:induction false} ParseEncoded(capacity: nat, messages: seq<TypedMessage>)
    requires AllValid(messages, capacity)
    ensures var parsed := Parse(Strict, capacity, EncodeAll(messages, capacity));
      && parsed.end == Open([])
      && AllTyped(parsed.frames)
      && Messages(parsed.frames) == messages
  {
    if messages != [] {
      var tail := messages[1..];
      ParseEncoded(capacity, tail);
      ParseOneEncoded(capacity, messages[0], EncodeAll(tail, capacity));
      Encoder.TypedInvertsCarrier(messages[0]);
      MessagesCons(Encoder.Carrier(messages[0]), Parse(Strict, capacity, EncodeAll(tail, capacity)).frames);
    }
  }

  /** Round trip: however the encodings of valid messages are cut, the strict decoder returns those messages. */
  lemma {:induction false} RoundTrip(capacity: nat, messages: seq<TypedMessage>, chunks: seq<seq<byte>>)
    requires AllValid(messages, capacity)
    requires Flatten(chunks) == EncodeAll(messages, capacity)
    ensures var drained := DrainAll(Strict, capacity, Live([]), chunks);
      && drained.end == Open([])
      && AllTyped(drained.frames)
      && Messages(drained.frames) == messages
  {
    hide Parse, DrainAll, EncodeAll, AllTyped, Messages, AllValid;
    FragmentationInvariance(Strict, capacity, [], chunks);
    assert [] + Flatten(chunks) == Flatten(chunks);
    AfterNothing(Parse(Strict, capacity, Flatten(chunks)), 0);
    ParseEncoded(capacity, messages);
  }

  /** The accepted messages are valid, encode to a prefix of the stream, and leave only the unfinished frame. */
  predicate Reencodes(capacity: nat, bytes: seq<byte>) {
    var parsed := Parse(Strict, capacity, bytes);
    && AllTyped(parsed.frames)
    && AllValid(Messages(parsed.frames), capacity)
    && EncodeAll(Messages(parsed.frames), capacity) <= bytes
    && (parsed.end.Open? ==> EncodeAll(Messages(parsed.frames), capacity) + parsed.end.rest == bytes)
  }

  /** Converse: what the strict decoder accepts re-encodes to the very bytes it accepted. */
  lemma {:induction false} AcceptedReencodes(capacity: nat, bytes: seq<byte>)
    ensures Reencodes(capacity, bytes)
    decreases |bytes|
  {
    hide ParseFront, Reencodes, Envelope.Typed, Encoder.Carrier, TypedMessage.Valid, Encoder.Frame;
    var front := ParseFront(KnownLength, capacity, bytes);
    if front.Complete? && Strict.ContentError(front.frame).None? {
      FrameAt(KnownLength, capacity, bytes);
      var raw, tail := front.frame, bytes[front.Width()..];
      Encoder.CarrierInvertsTyped(raw);
      AcceptedReencodes(capacity, tail);
      AcceptedStep(capacity, bytes, raw, tail);
    } else {
      NoneReencodes(capacity, bytes);
    }
  }

  lemma NoneReencodes(capacity: nat, bytes: seq<byte>)
    requires Parse(Strict, capacity, bytes).frames == []
    ensures Reencodes(capacity, bytes)
  {
    hide ParseFront, Envelope.Typed, Encoder.Encoded, TypedMessage.Valid;
  }

  lemma AcceptedStep(capacity: nat, bytes: seq<byte>, raw: RawEnvelope, tail: seq<byte>)
    requires Envelope.Typed(raw).Ok?
    requires Envelope.Typed(raw).value.Valid()
    requires Encoder.Carrier(Envelope.Typed(raw).value) == raw && |raw.payload| <= capacity
    requires bytes == Encoder.Encoded(Envelope.Typed(raw).value) + tail
    requires Parse(Strict, capacity, bytes) == Parse(Strict, capacity, tail).After([raw], |bytes| - |tail|)
    requires Reencodes(capacity, tail)
    ensures Reencodes(capacity, bytes)
  {
    hide Parse, ParseFront, Envelope.Typed, Encoder.Encoded, TypedMessage.Valid, Encoder.Carrier;
    var rest := Parse(Strict, capacity, tail);
    var first, later := Envelope.Typed(raw).value, Messages(rest.frames);
    MessagesCons(raw, rest.frames);
    EncodeAllCons(first, later, capacity);
    var encoded := EncodeAll(later, capacity);
    if rest.end.Open? {
      assert Encoder.Encoded(first) + tail == (Encoder.Encoded(first) + encoded) + rest.end.rest;
    }
  }
}
