/** Incoming session policy: one UUID, then admitted media and digits, then exactly one end. */
module Session {
  import opened Wire

  datatype SessionEnd = EndTerminate | EndPeerError(payload: seq<byte>) | EndOfInput

  datatype IncomingEvent =
    | Started(uuid: Uuid)
    | AudioEvent(uuid: Uuid, rate: SampleRate, payload: seq<byte>)
    | DtmfEvent(uuid: Uuid, digit: byte)
    | Ended(identity: Option<Uuid>, reason: SessionEnd)

  datatype IncomingSessionError =
    | MissingUuid
    | DuplicateUuid
    | UnsupportedRate(rate: SampleRate)
    | UnsupportedDigit(digit: byte)
    | UnsupportedType(wireType: byte)
    | AfterEnd

  type Verdict = Result<IncomingEvent, IncomingSessionError>

  /** The accepted rates as a bit mask. */
  datatype IncomingProfile = IncomingProfile(acceptedRates: bv16)
  {
    predicate Accepts(rate: SampleRate) {
      acceptedRates & RateBit(rate) != 0
    }
  }

  function RateBit(rate: SampleRate): bv16 {
    match rate
    case Khz8 => 1
    case Khz12 => 2
    case Khz16 => 4
    case Khz24 => 8
    case Khz32 => 16
    case Khz44_1 => 32
    case Khz48 => 64
    case Khz96 => 128
    case Khz192 => 256
  }

  const PCM_8_KHZ := IncomingProfile(1)
  const ALL_KNOWN_RATES := IncomingProfile(511)

  /** The mask built from a list accepts exactly the rates in the list. */
  method FromRates(rates: seq<SampleRate>) returns (profile: IncomingProfile)
    ensures forall rate :: profile.Accepts(rate) <==> rate in rates
  {
    var mask: bv16 := 0;
    for index := 0 to |rates|
      invariant forall rate :: mask & RateBit(rate) != 0 <==> rate in rates[..index]
    {
      assert rates[..index + 1] == rates[..index] + [rates[index]];
      mask := mask | RateBit(rates[index]);
    }
    assert rates[..|rates|] == rates;
    profile := IncomingProfile(mask);
  }

  lemma NamedProfiles(rate: SampleRate)
    ensures PCM_8_KHZ.Accepts(rate) <==> rate == Khz8
    ensures ALL_KNOWN_RATES.Accepts(rate)
  {
  }

  datatype SessionState = AwaitingUuid | Active(uuid: Uuid) | SessionEnded
  {
    function Identity(): Option<Uuid> {
      if Active? then Some(uuid) else None
    }
  }

  predicate AcceptedDigit(digit: byte) {
    || '0' as int <= digit <= '9' as int
    || digit == '*' as int
    || digit == '#' as int
    || 'A' as int <= digit <= 'D' as int
  }

  /** One step of the policy. */
  function Receive(profile: IncomingProfile, state: SessionState, message: TypedMessage): (SessionState, Verdict) {
    if state == SessionEnded then (SessionEnded, Err(AfterEnd))
    else
      match message
      case Terminate => (SessionEnded, Ok(Ended(state.Identity(), EndTerminate)))
      case PeerError(payload) => (SessionEnded, Ok(Ended(state.Identity(), EndPeerError(payload))))
      case Unknown(wireType, _) => (SessionEnded, Err(UnsupportedType(wireType)))
      case Identity(uuid) =>
        if state.Active? then (SessionEnded, Err(DuplicateUuid)) else (Active(uuid), Ok(Started(uuid)))
      case Audio(rate, payload) =>
        if !state.Active? then (SessionEnded, Err(MissingUuid))
        else if !profile.Accepts(rate) then (SessionEnded, Err(UnsupportedRate(rate)))
        else (state, Ok(AudioEvent(state.uuid, rate, payload)))
      case Digit(digit) =>
        if !state.Active? then (SessionEnded, Err(MissingUuid))
        else if !AcceptedDigit(digit) then (SessionEnded, Err(UnsupportedDigit(digit)))
        else (state, Ok(DtmfEvent(state.uuid, digit)))
  }

  function FinishInput(state: SessionState): (SessionState, Verdict) {
    if state == SessionEnded then (SessionEnded, Err(AfterEnd))
    else (SessionEnded, Ok(Ended(state.Identity(), EndOfInput)))
  }

  /** The session object; its two calls are the two policy steps. */
  class IncomingSession {
    var state: SessionState
    const profile: IncomingProfile

    constructor (profile: IncomingProfile)
      ensures state == AwaitingUuid && this.profile == profile
    {
      this.state, this.profile := AwaitingUuid, profile;
    }

    method ReceiveMessage(message: TypedMessage) returns (verdict: Verdict)
      modifies this
      ensures (state, verdict) == Receive(profile, old(state), message)
      ensures if old(state) == SessionEnded then verdict == Err(AfterEnd)
              else Answers(profile, old(state).Identity(), Message(message), verdict)
    {
      if state == SessionEnded {
        return Err(AfterEnd);
      }
      match message {
        case Terminate => verdict := End(EndTerminate);
        case PeerError(payload) => verdict := End(EndPeerError(payload));
        case Identity(uuid) =>
          if state.AwaitingUuid? {
            state, verdict := Active(uuid), Ok(Started(uuid));
          } else {
            verdict := Reject(DuplicateUuid);
          }
        case Audio(rate, payload) =>
          if state.AwaitingUuid? {
            verdict := Reject(MissingUuid);
          } else if !profile.Accepts(rate) {
            verdict := Reject(UnsupportedRate(rate));
          } else {
            verdict := Ok(AudioEvent(state.uuid, rate, payload));
          }
        case Digit(digit) =>
          if state.AwaitingUuid? {
            verdict := Reject(MissingUuid);
          } else if !AcceptedDigit(digit) {
            verdict := Reject(UnsupportedDigit(digit));
          } else {
            verdict := Ok(DtmfEvent(state.uuid, digit));
          }
        case Unknown(wireType, _) => verdict := Reject(UnsupportedType(wireType));
      }
    }

    method ReceiveEndOfInput() returns (verdict: Verdict)
      modifies this
      ensures (state, verdict) == FinishInput(old(state))
      ensures if old(state) == SessionEnded then verdict == Err(AfterEnd)
              else Answers(profile, old(state).Identity(), InputEnd, verdict)
    {
      if state == SessionEnded {
        return Err(AfterEnd);
      }
      verdict := End(EndOfInput);
    }

    method End(reason: SessionEnd) returns (verdict: Verdict)
      modifies this
      ensures state == SessionEnded && verdict == Ok(Ended(old(state).Identity(), reason))
    {
      verdict := Ok(Ended(state.Identity(), reason));
      state := SessionEnded;
    }

    method Reject(error: IncomingSessionError) returns (verdict: Verdict)
      modifies this
      ensures state == SessionEnded && verdict == Err(error)
    {
      state := SessionEnded;
      verdict := Err(error);
    }
  }

  /** A call a session user can make. */
  datatype Call = Message(message: TypedMessage) | InputEnd

  function Answer(profile: IncomingProfile, state: SessionState, call: Call): (SessionState, Verdict) {
    match call
    case Message(message) => Receive(profile, state, message)
    case InputEnd => FinishInput(state)
  }

  function Trace(profile: IncomingProfile, state: SessionState, calls: seq<Call>): (verdicts: seq<Verdict>)
    ensures |verdicts| == |calls|
    decreases |calls|
  {
    if calls == [] then []
    else
      var (next, verdict) := Answer(profile, state, calls[0]);
      [verdict] + Trace(profile, next, calls[1..])
  }

  /** A verdict that keeps the session of `uuid` going: admitted media or an admitted digit. */
  predicate Ongoing(profile: IncomingProfile, uuid: Uuid, verdict: Verdict) {
    && verdict.Ok?
    && match verdict.value
       case AudioEvent(id, rate, _) => id == uuid && profile.Accepts(rate)
       case DtmfEvent(id, digit) => id == uuid && AcceptedDigit(digit)
       case _ => false
  }

  /** A verdict that ends the session, naming the identity if one was established. */
  predicate Terminal(identity: Option<Uuid>, verdict: Verdict) {
    match verdict
    case Ok(event) => event.Ended? && event.identity == identity
    case Err(error) => error != AfterEnd
  }

  /** Legal verdicts after the UUID, read without the session's own state. */
  predicate LegalTail(profile: IncomingProfile, uuid: Uuid, verdicts: seq<Verdict>) {
    exists live :: 0 <= live <= |verdicts| && SplitsAt(profile, uuid, verdicts, live)
  }

  predicate SplitsAt(profile: IncomingProfile, uuid: Uuid, verdicts: seq<Verdict>, live: nat)
    requires live <= |verdicts|
  {
    && (forall i :: 0 <= i < live ==> Ongoing(profile, uuid, verdicts[i]))
    && (live < |verdicts| ==> Terminal(Some(uuid), verdicts[live]))
    && (forall i :: live < i < |verdicts| ==> verdicts[i] == Err(AfterEnd))
  }

  /** A whole legal trace: a start first, or an end before any start; then only what the policy allows. */
  predicate LegalTrace(profile: IncomingProfile, verdicts: seq<Verdict>) {
    || verdicts == []
    || (&& verdicts[0].Ok? && verdicts[0].value.Started?
        && LegalTail(profile, verdicts[0].value.uuid, verdicts[1..]))
    || (&& Terminal(None, verdicts[0])
        && forall i :: 0 < i < |verdicts| ==> verdicts[i] == Err(AfterEnd))
  }

  lemma {:induction false} AfterEndForever(profile: IncomingProfile, calls: seq<Call>)
    ensures forall i :: 0 <= i < |calls| ==> Trace(profile, SessionEnded, calls)[i] == Err(AfterEnd)
    decreases |calls|
  {
    if calls != [] {
      AfterEndForever(profile, calls[1..]);
    }
  }

  lemma {:induction false} ActiveTrace(profile: IncomingProfile, uuid: Uuid, calls: seq<Call>)
    ensures LegalTail(profile, uuid, Trace(profile, Active(uuid), calls))
    decreases |calls|
  {
    var verdicts := Trace(profile, Active(uuid), calls);
    if calls == [] {
      assert SplitsAt(profile, uuid, verdicts, 0);
    } else {
      var (next, verdict) := Answer(profile, Active(uuid), calls[0]);
      var tail := Trace(profile, next, calls[1..]);
      assert verdicts == [verdict] + tail;
      if next == SessionEnded {
        AfterEndForever(profile, calls[1..]);
        assert SplitsAt(profile, uuid, verdicts, 0);
      } else {
        ActiveTrace(profile, uuid, calls[1..]);
        var live :| 0 <= live <= |tail| && SplitsAt(profile, uuid, tail, live);
        assert SplitsAt(profile, uuid, verdicts, live + 1);
      }
    }
  }

  /** Every run of the policy is a legal trace: one start, its own media, one end, then only AfterEnd. */
  lemma TraceIsLegal(profile: IncomingProfile, calls: seq<Call>)
    ensures LegalTrace(profile, Trace(profile, AwaitingUuid, calls))
  {
    var verdicts := Trace(profile, AwaitingUuid, calls);
    if calls != [] {
      var (next, verdict) := Answer(profile, AwaitingUuid, calls[0]);
      assert verdicts == [verdict] + Trace(profile, next, calls[1..]);
      if next == SessionEnded {
        AfterEndForever(profile, calls[1..]);
      } else {
        ActiveTrace(profile, next.uuid, calls[1..]);
        assert verdicts[1..] == Trace(profile, next, calls[1..]);
      }
    }
  }

  /** What a peer may send after its UUID without ending the session. */
  predicate Media(profile: IncomingProfile, call: Call) {
    && call.Message?
    && match call.message
       case Audio(rate, _) => profile.Accepts(rate)
       case Digit(digit) => AcceptedDigit(digit)
       case _ => false
  }

  predicate Alive(verdict: Verdict) {
    verdict.Ok? && !verdict.value.Ended?
  }

  /** The digits of the policy are the sixteen keys of a telephone keypad. */
  lemma AcceptedAlphabet(digit: byte)
    ensures AcceptedDigit(digit) <==> digit as char in "0123456789*#ABCD"
  {
  }

  /** The call that ends a session for `reason`. */
  function EndCall(reason: SessionEnd): Call {
    match reason
    case EndTerminate => Message(Terminate)
    case EndPeerError(payload) => Message(PeerError(payload))
    case EndOfInput => InputEnd
  }

  /** The one call that an event reports, to a session that was started as `named`. */
  predicate Reports(profile: IncomingProfile, named: Option<Uuid>, call: Call, event: IncomingEvent) {
    match event
    case Started(uuid) => named == None && call == Message(Identity(uuid))
    case AudioEvent(uuid, rate, payload) =>
      named == Some(uuid) && call == Message(Audio(rate, payload)) && profile.Accepts(rate)
    case DtmfEvent(uuid, digit) => named == Some(uuid) && call == Message(Digit(digit)) && AcceptedDigit(digit)
    case Ended(identity, reason) => identity == named && call == EndCall(reason)
  }

  /** The calls that are rejected for `error` by a session that was started as `named`. */
  predicate Deserves(profile: IncomingProfile, named: Option<Uuid>, call: Call, error: IncomingSessionError) {
    && call.Message?
    && match error
       case MissingUuid => named == None && (call.message.Audio? || call.message.Digit?)
       case DuplicateUuid => named != None && call.message.Identity?
       case UnsupportedRate(rate) =>
         named != None && call.message.Audio? && call.message.rate == rate && !profile.Accepts(rate)
       case UnsupportedDigit(digit) => named != None && call.message == Digit(digit) && !AcceptedDigit(digit)
       case UnsupportedType(wireType) => call.message.Unknown? && call.message.wireType == wireType
       case AfterEnd => false
  }

  /** The identity that the first `count` calls of a running session gave it. */
  function NamedBy(calls: seq<Call>, count: nat): Option<Uuid>
    requires count <= |calls|
  {
    if count > 0 && calls[0].Message? && calls[0].message.Identity? then Some(calls[0].message.uuid) else None
  }

  /** An answer is the event that reports the call, or the rejection that the call deserves. */
  predicate Answers(profile: IncomingProfile, named: Option<Uuid>, call: Call, verdict: Verdict) {
    match verdict
    case Ok(event) => Reports(profile, named, call, event)
    case Err(error) => Deserves(profile, named, call, error)
  }

  /** No call has two answers. */
  lemma OneAnswer(profile: IncomingProfile, named: Option<Uuid>, call: Call, left: Verdict, right: Verdict)
    requires Answers(profile, named, call, left) && Answers(profile, named, call, right)
    ensures left == right
  {
  }

  lemma {:induction false} ActiveAnswers(profile: IncomingProfile, uuid: Uuid, calls: seq<Call>, i: nat)
    requires i < |calls|
    requires forall j :: 0 <= j < i ==> Alive(Trace(profile, Active(uuid), calls)[j])
    ensures Answers(profile, Some(uuid), calls[i], Trace(profile, Active(uuid), calls)[i])
    decreases |calls|
  {
    if i > 0 {
      var (next, verdict) := Answer(profile, Active(uuid), calls[0]);
      var verdicts, rest := Trace(profile, Active(uuid), calls), Trace(profile, next, calls[1..]);
      assert verdicts == [verdict] + rest;
      assert Alive(verdicts[0]);
      assert forall j :: 0 <= j < i - 1 ==> rest[j] == verdicts[j + 1];
      ActiveAnswers(profile, uuid, calls[1..], i - 1);
    }
  }

  /**
   * While no call has ended the session, each call gets its own answer, with its own payload and cause; the first
   * of them decides the identity. So the first rejection of a trace names what the peer did.
   */
  lemma {:induction false} TraceAnswers(profile: IncomingProfile, calls: seq<Call>, i: nat)
    requires i < |calls|
    requires forall j :: 0 <= j < i ==> Alive(Trace(profile, AwaitingUuid, calls)[j])
    ensures i > 0 ==> NamedBy(calls, i) != None
    ensures Answers(profile, NamedBy(calls, i), calls[i], Trace(profile, AwaitingUuid, calls)[i])
  {
    if i > 0 {
      var (next, verdict) := Answer(profile, AwaitingUuid, calls[0]);
      var verdicts, rest := Trace(profile, AwaitingUuid, calls), Trace(profile, next, calls[1..]);
      assert verdicts == [verdict] + rest;
      assert Alive(verdicts[0]);
      assert forall j :: 0 <= j < i - 1 ==> rest[j] == verdicts[j + 1];
      ActiveAnswers(profile, next.uuid, calls[1..], i - 1);
    }
  }

  lemma {:induction false} StaysActive(profile: IncomingProfile, uuid: Uuid, calls: seq<Call>)
    ensures (forall v <- Trace(profile, Active(uuid), calls) :: Alive(v)) <==> (forall c <- calls :: Media(profile, c))
    decreases |calls|
  {
    if calls != [] {
      var (next, verdict) := Answer(profile, Active(uuid), calls[0]);
      var verdicts := Trace(profile, Active(uuid), calls);
      assert verdicts == [verdict] + Trace(profile, next, calls[1..]);
      assert calls == [calls[0]] + calls[1..];
      if Media(profile, calls[0]) {
        StaysActive(profile, uuid, calls[1..]);
      } else {
        assert verdict in verdicts && !Alive(verdict);
        assert calls[0] in calls;
      }
    }
  }

  /** Exactly which peers are never cut off: those that send one UUID first and then only admitted media. */
  lemma NeverEndedIff(profile: IncomingProfile, calls: seq<Call>)
    requires calls != []
    ensures (forall v <- Trace(profile, AwaitingUuid, calls) :: Alive(v))
      <==> calls[0].Message? && calls[0].message.Identity? && forall c <- calls[1..] :: Media(profile, c)
  {
    var (next, verdict) := Answer(profile, AwaitingUuid, calls[0]);
    var verdicts := Trace(profile, AwaitingUuid, calls);
    assert verdicts == [verdict] + Trace(profile, next, calls[1..]);
    if next == SessionEnded {
      assert verdict in verdicts && !Alive(verdict);
    } else {
      StaysActive(profile, next.uuid, calls[1..]);
    }
  }
}
