/** Incremental framing over fixed scratch, specified by a parse of the bytes seen so far. */
module Framing {
  import opened Wire
  import Envelope

  datatype DecodeError =
    | InvalidLength(detail: TypedMessageError)
    | ResourceLimit(required: nat, capacity: nat)
    | InvalidContent(detail: TypedMessageError)
    | Failed

  datatype FinishError =
    | TruncatedHeader(expected: nat, received: nat)
    | TruncatedPayload(expected: nat, received: nat)
    | FinishFailed

  /** The header check a framer is given: the raw decoder has none, the typed decoder checks known lengths. */
  datatype HeaderRule = AnyLength | KnownLength

  function CheckHeader(rule: HeaderRule, wireType: byte, length: nat): Option<TypedMessageError> {
    match rule
    case AnyLength => None
    case KnownLength => Envelope.ValidateTypedLength(wireType, length)
  }

  /** What the front of a byte string amounts to. */
  datatype Front =
    | Incomplete
    | Complete(frame: RawEnvelope)
    | Refused(error: DecodeError)
  {
    function Width(): nat
      requires !Incomplete?
    {
      if Complete? then HEADER_BYTES + |frame.payload| else HEADER_BYTES
    }
  }

  function BodyLength(bytes: seq<byte>): nat
    requires |bytes| >= HEADER_BYTES
  {
    (bytes[1] as int) * 256 + bytes[2]
  }

  function HeaderError(rule: HeaderRule, capacity: nat, bytes: seq<byte>): Option<DecodeError>
    requires |bytes| >= HEADER_BYTES
  {
    var length := BodyLength(bytes);
    match CheckHeader(rule, bytes[0], length)
    case Some(error) => Some(InvalidLength(error))
    case None => if length > capacity then Some(ResourceLimit(length, capacity)) else None
  }

  /** Reference reading of one frame from a string that is wholly present. */
  function ParseFront(rule: HeaderRule, capacity: nat, bytes: seq<byte>): Front {
    if |bytes| < HEADER_BYTES then Incomplete
    else if HeaderError(rule, capacity, bytes).Some? then Refused(HeaderError(rule, capacity, bytes).value)
    else if |bytes| < HEADER_BYTES + BodyLength(bytes) then Incomplete
    else Complete(RawEnvelope(bytes[0], bytes[HEADER_BYTES..HEADER_BYTES + BodyLength(bytes)]))
  }

  /** Bytes that arrive later never change a front that is already decided. */
  lemma FrontStable(rule: HeaderRule, capacity: nat, bytes: seq<byte>, more: seq<byte>)
    requires !ParseFront(rule, capacity, bytes).Incomplete?
    ensures ParseFront(rule, capacity, bytes + more) == ParseFront(rule, capacity, bytes)
    ensures ParseFront(rule, capacity, bytes).Width() <= |bytes|
  {
    var all := bytes + more;
    assert all[0] == bytes[0] && all[1] == bytes[1] && all[2] == bytes[2];
    if ParseFront(rule, capacity, bytes).Complete? {
      var end := HEADER_BYTES + BodyLength(bytes);
      assert all[HEADER_BYTES..end] == bytes[HEADER_BYTES..end];
    }
  }

  /** A decoder between calls: the bytes of the unfinished frame, or a terminal failure. */
  datatype Progress = Live(partial: seq<byte>) | Broken

  datatype Outcome = NeedInput | Frame(raw: RawEnvelope) | Error(error: DecodeError)

  datatype Fed = Fed(outcome: Outcome, after: Progress, consumed: nat)

  /** No finished frame is left undelivered between calls. */
  predicate Settled(rule: HeaderRule, capacity: nat, progress: Progress) {
    progress.Live? ==> ParseFront(rule, capacity, progress.partial).Incomplete?
  }

  /** One call: the unfinished bytes and the new input are read as one string. */
  function Advance(rule: HeaderRule, capacity: nat, before: Progress, input: seq<byte>): (fed: Fed)
    requires Settled(rule, capacity, before)
    ensures fed.consumed <= |input|
    ensures Settled(rule, capacity, fed.after)
    ensures fed.outcome.Frame? ==> 0 < fed.consumed && fed.after == Live([])
  {
    match before
    case Broken => Fed(Error(Failed), Broken, 0)
    case Live(partial) =>
      var front := ParseFront(rule, capacity, partial + input);
      match front
      case Incomplete => Fed(NeedInput, Live(partial + input), |input|)
      case Refused(error) =>
        FrontBeyond(rule, capacity, partial, input);
        Fed(Error(error), Broken, front.Width() - |partial|)
      case Complete(raw) =>
        FrontBeyond(rule, capacity, partial, input);
        Fed(Frame(raw), Live([]), front.Width() - |partial|)
  }

  /** A front decided only by the new input ends inside that input. */
  lemma FrontBeyond(rule: HeaderRule, capacity: nat, partial: seq<byte>, input: seq<byte>)
    requires ParseFront(rule, capacity, partial).Incomplete?
    requires !ParseFront(rule, capacity, partial + input).Incomplete?
    ensures |partial| < ParseFront(rule, capacity, partial + input).Width() <= |partial| + |input|
  {
    var all := partial + input;
    FrontStable(rule, capacity, all, []);
    if |partial| >= HEADER_BYTES {
      HeaderDecides(rule, capacity, partial[..HEADER_BYTES], partial, partial[HEADER_BYTES..]);
      HeaderDecides(rule, capacity, partial[..HEADER_BYTES], all, partial[HEADER_BYTES..] + input);
    }
  }

  function Finish(progress: Progress): Option<FinishError> {
    match progress
    case Broken => Some(FinishFailed)
    case Live(partial) =>
      if partial == [] then None
      else if |partial| < HEADER_BYTES then Some(TruncatedHeader(HEADER_BYTES, |partial|))
      else Some(TruncatedPayload(BodyLength(partial), |partial| - HEADER_BYTES))
  }

  /** A framer that failed stays failed: it consumes nothing more and says so to every call. */
  lemma FailsForGood(rule: HeaderRule, capacity: nat, before: Progress, input: seq<byte>, more: seq<byte>)
    requires Settled(rule, capacity, before) && Advance(rule, capacity, before, input).outcome.Error?
    ensures var after := Advance(rule, capacity, before, input).after;
      && Advance(rule, capacity, after, more) == Fed(Error(Failed), after, 0)
      && Finish(after) == Some(FinishFailed)
  {
  }

  /** What the end of input in the middle of a frame lacks: fewer bytes leave it unfinished, exactly these end it. */
  lemma FinishTells(rule: HeaderRule, capacity: nat, partial: seq<byte>, more: seq<byte>)
    requires ParseFront(rule, capacity, partial).Incomplete?
    ensures var front := ParseFront(rule, capacity, partial + more);
      match Finish(Live(partial))
      case None => partial == []
      case Some(TruncatedHeader(expected, received)) =>
        && 0 < received == |partial| < expected == HEADER_BYTES
        && (|more| < expected - received ==> front.Incomplete?)
        && (|more| == expected - received && front.Incomplete? ==>
              Finish(Live(partial + more)) == Some(TruncatedPayload(BodyLength(partial + more), 0)))
      case Some(TruncatedPayload(expected, received)) =>
        && HEADER_BYTES + received == |partial| && received < expected
        && (|more| < expected - received ==> front.Incomplete?)
        && (|more| == expected - received ==>
              front == Complete(RawEnvelope(partial[0], partial[HEADER_BYTES..] + more)))
      case Some(FinishFailed) => false
    ensures partial == [] ==> Finish(Live(partial)) == None
  {
    var all := partial + more;
    if |partial| >= HEADER_BYTES {
      assert partial == partial[..HEADER_BYTES] + partial[HEADER_BYTES..];
      HeaderDecides(rule, capacity, partial[..HEADER_BYTES], partial, partial[HEADER_BYTES..]);
      assert all == partial[..HEADER_BYTES] + (partial[HEADER_BYTES..] + more);
      HeaderDecides(rule, capacity, partial[..HEADER_BYTES], all, partial[HEADER_BYTES..] + more);
    }
  }

  datatype FramerState =
    | Header(received: nat)
    | Body(wireType: byte, length: nat, received: nat)
    | FailedState

  /** The framer over caller-owned scratch; `Abstract()` is the decoder progress its fields stand for. */
  class Framer {
    const scratch: array<byte>
    const header: array<byte>
    var state: FramerState

    ghost predicate Valid()
      reads this, header, scratch
    {
      && header.Length == HEADER_BYTES
      && header != scratch
      && match state
         case FailedState => true
         case Header(received) => received < HEADER_BYTES
         case Body(wireType, length, received) =>
           && received < length <= scratch.Length
           && wireType == header[0]
           && length == BodyLength(header[..])
    }

    ghost function Abstract(): Progress
      requires Valid()
      reads this, header, scratch
    {
      match state
      case FailedState => Broken
      case Header(received) => Live(header[..received])
      case Body(_, _, received) => Live(header[..] + scratch[..received])
    }

    ghost predicate Ready(rule: HeaderRule)
      reads this, header, scratch
    {
      Valid() && Settled(rule, scratch.Length, Abstract())
    }

    constructor (scratch: array<byte>)
      ensures this.scratch == scratch && fresh(header)
      ensures Valid() && Abstract() == Live([])
    {
      this.scratch := scratch;
      header := new byte[HEADER_BYTES](_ => 0);
      state := Header(0);
    }

    /** Consumes one complete frame at most and reports how much input it used. */
    method Feed(input: seq<byte>, rule: HeaderRule) returns (outcome: Outcome, consumed: nat)
      requires Ready(rule)
      modifies this, header, scratch
      ensures Ready(rule)
      ensures Fed(outcome, Abstract(), consumed) == Advance(rule, scratch.Length, old(Abstract()), input)
    {
      outcome, consumed := NeedInput, 0;
      ghost var before := Abstract();
      ghost var expected := Advance(rule, scratch.Length, before, input);
      var done := false;
      while !done
        invariant Valid() && consumed <= |input|
        invariant done ==> Fed(outcome, Abstract(), consumed) == expected
        invariant !done ==> (before.Broken? <==> state.FailedState?)
        invariant !done && before.Live? ==> Abstract() == Live(before.partial + input[..consumed])
        invariant !done && !state.Body? ==> consumed == 0
        invariant !done && state.Body? ==> HeaderError(rule, scratch.Length, header[..]) == None
        decreases !done, if state.Header? then 1 else 0
      {
        match state {
          case FailedState =>
            outcome, done := Error(Failed), true;
          case Header(_) =>
            outcome, consumed, done := FillHeader(input, rule);
          case Body(_, _, _) =>
            outcome, consumed := FillBody(input, consumed, rule, before.partial);
            done := true;
        }
      }
    }

    /** Completes and checks the header; not done when a body has to follow. */
    method FillHeader(input: seq<byte>, rule: HeaderRule) returns (outcome: Outcome, consumed: nat, done: bool)
      requires Ready(rule) && state.Header?
      modifies this, header
      ensures Valid() && consumed <= |input|
      ensures done ==>
        Fed(outcome, Abstract(), consumed) == Advance(rule, scratch.Length, old(Abstract()), input)
      ensures !done ==>
        && state.Body?
        && HeaderError(rule, scratch.Length, header[..]) == None
        && Abstract() == Live(old(Abstract()).partial + input[..consumed])
    {
      ghost var before := Abstract().partial;
      var received := state.received;
      outcome, done := NeedInput, true;
      consumed := CopyPrefix(header, received, HEADER_BYTES, input);
      received := received + consumed;
      AdvanceInHeader(rule, scratch.Length, before, input, consumed, header[..received]);
      if received < HEADER_BYTES {
        state := Header(received);
        return;
      }
      assert header[..] == header[..received];
      var wireType := header[0];
      var length := (header[1] as int) * 256 + header[2];
      var invalid := CheckHeader(rule, wireType, length);
      if invalid.Some? {
        state, outcome := FailedState, Error(InvalidLength(invalid.value));
      } else if length > scratch.Length {
        state, outcome := FailedState, Error(ResourceLimit(length, scratch.Length));
      } else if length == 0 {
        state, outcome := Header(0), Frame(RawEnvelope(wireType, []));
      } else {
        state, done := Body(wireType, length, 0), false;
      }
    }

    /** Copies body bytes after the `start` input bytes already used. */
    method FillBody(input: seq<byte>, start: nat, rule: HeaderRule, ghost before: seq<byte>)
      returns (outcome: Outcome, consumed: nat)
      requires Valid() && state.Body? && start <= |input|
      requires Settled(rule, scratch.Length, Live(before)) && Abstract() == Live(before + input[..start])
      requires HeaderError(rule, scratch.Length, header[..]) == None
      modifies this, scratch
      ensures Valid()
      ensures Fed(outcome, Abstract(), consumed) == Advance(rule, scratch.Length, Live(before), input)
    {
      var Body(wireType, length, received) := state;
      ghost var filled := scratch[..received];
      assert before + input[..start] == header[..] + filled;
      var copied := CopyPrefix(scratch, received, length, input[start..]);
      consumed := start + copied;
      received := received + copied;
      assert input[start..][..copied] == input[start..consumed];
      AdvanceInBody(rule, scratch.Length, before, input, start, consumed, header[..], filled, scratch[..received]);
      if received < length {
        state, outcome := Body(wireType, length, received), NeedInput;
      } else {
        state, outcome := Header(0), Frame(RawEnvelope(wireType, scratch[..length]));
      }
    }

    /** The explicit end of input: clean only at a frame boundary. */
    method FinishInput() returns (r: Option<FinishError>)
      requires Valid()
      ensures r == Finish(Abstract())
      ensures r == None <==> Abstract() == Live([])
      ensures r == Some(FinishFailed) <==> Abstract() == Broken
      ensures r.Some? && r.value.TruncatedHeader? ==>
        0 < r.value.received == |Abstract().partial| < r.value.expected == HEADER_BYTES
      ensures r.Some? && r.value.TruncatedPayload? ==>
        && HEADER_BYTES + r.value.received == |Abstract().partial|
        && r.value.received < r.value.expected == BodyLength(Abstract().partial)
    {
      match state {
        case Header(received) =>
          r := if received == 0 then None else Some(TruncatedHeader(HEADER_BYTES, received));
        case Body(_, length, received) =>
          assert Abstract().partial[..HEADER_BYTES] == header[..];
          r := Some(TruncatedPayload(length, received));
        case FailedState => r := Some(FinishFailed);
      }
    }
  }

  /** With three bytes present the header alone decides refusal, and the rest decides completion. */
  lemma HeaderDecides(rule: HeaderRule, capacity: nat, header: seq<byte>, all: seq<byte>, rest: seq<byte>)
    requires |header| == HEADER_BYTES && all == header + rest
    ensures BodyLength(all) == BodyLength(header)
    ensures HeaderError(rule, capacity, all) == HeaderError(rule, capacity, header)
  {
  }

  /** What a call comes to while the header is being filled. */
  lemma AdvanceInHeader(rule: HeaderRule, capacity: nat, partial: seq<byte>, input: seq<byte>, consumed: nat,
                        header: seq<byte>)
    requires Settled(rule, capacity, Live(partial))
    requires consumed <= |input| && header == partial + input[..consumed] && |header| <= HEADER_BYTES
    ensures |header| < HEADER_BYTES && consumed == |input| ==>
      Advance(rule, capacity, Live(partial), input) == Fed(NeedInput, Live(header), consumed)
    ensures |header| == HEADER_BYTES && HeaderError(rule, capacity, header).Some? ==>
      Advance(rule, capacity, Live(partial), input)
        == Fed(Error(HeaderError(rule, capacity, header).value), Broken, consumed)
    ensures |header| == HEADER_BYTES && HeaderError(rule, capacity, header).None? && BodyLength(header) == 0 ==>
      Advance(rule, capacity, Live(partial), input) == Fed(Frame(RawEnvelope(header[0], [])), Live([]), consumed)
  {
    if |header| == HEADER_BYTES {
      assert partial + input == header + input[consumed..];
      HeaderDecides(rule, capacity, header, partial + input, input[consumed..]);
    } else if consumed == |input| {
      assert partial + input == header;
    }
  }

  /** What a call comes to while the body is being filled. */
  lemma AdvanceInBody(rule: HeaderRule, capacity: nat, partial: seq<byte>, input: seq<byte>, start: nat,
                      consumed: nat, header: seq<byte>, filled: seq<byte>, body: seq<byte>)
    requires Settled(rule, capacity, Live(partial))
    requires |header| == HEADER_BYTES && HeaderError(rule, capacity, header).None?
    requires start <= consumed <= |input|
    requires partial + input[..start] == header + filled && body == filled + input[start..consumed]
    ensures partial + input[..consumed] == header + body
    ensures |body| < BodyLength(header) && consumed == |input| ==>
      Advance(rule, capacity, Live(partial), input) == Fed(NeedInput, Live(header + body), consumed)
    ensures |body| == BodyLength(header) ==>
      Advance(rule, capacity, Live(partial), input) == Fed(Frame(RawEnvelope(header[0], body)), Live([]), consumed)
  {
    var all, rest := partial + input, input[consumed..];
    var added := input[start..consumed];
    assert input[..consumed] == input[..start] + added;
    assert partial + input[..consumed] == (partial + input[..start]) + added;
    assert (header + filled) + added == header + body;
    assert input == input[..consumed] + rest;
    assert all == (partial + input[..consumed]) + rest;
    assert (header + body) + rest == header + (body + rest);
    HeaderDecides(rule, capacity, header, all, body + rest);
    if |body| == BodyLength(header) {
      assert all[HEADER_BYTES..HEADER_BYTES + |body|] == body;
    } else if consumed == |input| {
      assert all == header + body;
    }
  }

  method CopyPrefix(destination: array<byte>, from: nat, to: nat, input: seq<byte>) returns (count: nat)
    requires from <= to <= destination.Length
    modifies destination
    ensures count == if to - from < |input| then to - from else |input|
    ensures destination[..from + count] == old(destination[..from]) + input[..count]
    ensures destination[from + count..] == old(destination[from + count..])
  {
    count := if to - from < |input| then to - from else |input|;
    forall i | 0 <= i < count {
      destination[from + i] := input[i];
    }
  }
}
