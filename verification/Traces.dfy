/** The reading of a stream is the session's trace over the typed frames of its parse. */
module Traces {
  import opened Wire
  import opened Records
  import opened Meaning
  import Framing
  import Codec
  import Session
  import Envelope
  import Connection
  import Delivery

  /** The session calls of the frames up to the first that cannot be typed. */
  function CallsOf(frames: seq<RawEnvelope>): (calls: seq<Session.Call>)
    ensures |calls| <= |frames|
    ensures |calls| < |frames| ==> Envelope.Typed(frames[|calls|]).Err?
  {
    if frames == [] || Envelope.Typed(frames[0]).Err? then []
    else [Session.Message(Envelope.Typed(frames[0]).value)] + CallsOf(frames[1..])
  }

  function StateAfter(profile: Session.IncomingProfile, state: Session.SessionState, calls: seq<Session.Call>)
    : Session.SessionState
    decreases |calls|
  {
    if calls == [] then state
    else StateAfter(profile, Session.Answer(profile, state, calls[0]).0, calls[1..])
  }

  /** How many verdicts there are before one that ends the session. */
  function AliveCount(verdicts: seq<Session.Verdict>): (count: nat)
    ensures count <= |verdicts|
    ensures forall i :: 0 <= i < count ==> Session.Alive(verdicts[i])
    ensures count < |verdicts| ==> !Session.Alive(verdicts[count])
  {
    if verdicts == [] || !Session.Alive(verdicts[0]) then 0 else 1 + AliveCount(verdicts[1..])
  }

  /** The position after the first `count` frames. */
  function EndAt(frames: seq<RawEnvelope>, offset: nat, count: nat): nat
    requires count <= |frames|
  {
    if count == 0 then offset
    else EndAt(frames[1..], offset + HEADER_BYTES + |frames[0].payload|, count - 1)
  }

  function KindFor(identity: Option<Uuid>, verdict: Session.Verdict): RecordKind {
    match verdict
    case Ok(event) => KindOf(event)
    case Err(error) => Ended(identity, Policy(error))
  }

  /** The record of one verdict: at the end of its frame, with the identity held before it. */
  function RecordAt(setup: Setup, state: Session.SessionState, frames: seq<RawEnvelope>, offset: nat, i: nat): Record
    requires i < |CallsOf(frames)|
  {
    var calls := CallsOf(frames);
    Record(setup.id, EndAt(frames, offset, i + 1),
           KindFor(StateAfter(setup.profile, state, calls[..i]).Identity(),
                   Session.Trace(setup.profile, state, calls)[i]))
  }

  function RecordsTo(setup: Setup, state: Session.SessionState, frames: seq<RawEnvelope>, offset: nat, count: nat)
    : (records: seq<Record>)
    requires count <= |CallsOf(frames)|
    ensures |records| == count
    ensures forall i :: 0 <= i < count ==> records[i] == RecordAt(setup, state, frames, offset, i)
    decreases count
  {
    if count == 0 then []
    else
      RecordsTo(setup, state, frames, offset, count - 1) + [RecordAt(setup, state, frames, offset, count - 1)]
  }

  predicate Positioned(parsed: Codec.Parsed) {
    parsed.end.Fault? ==> parsed.end.at >= 0
  }

  /** What a parsed stream tells: its trace up to the verdict that ends it, or else how its frames end. */
  function Tell(setup: Setup, state: Session.SessionState, parsed: Codec.Parsed, offset: nat): Reading
    requires Positioned(parsed)
  {
    var calls := CallsOf(parsed.frames);
    var alive := AliveCount(Session.Trace(setup.profile, state, calls));
    if alive < |calls| then Reading(RecordsTo(setup, state, parsed.frames, offset, alive + 1), None)
    else
      var records := RecordsTo(setup, state, parsed.frames, offset, |calls|);
      var last := StateAfter(setup.profile, state, calls);
      if |calls| < |parsed.frames| then
        var error := Envelope.Typed(parsed.frames[|calls|]).error;
        Reading(records + [Record(setup.id, EndAt(parsed.frames, offset, |calls| + 1),
                                  Ended(last.Identity(), InvalidMessage(error)))], None)
      else
        match parsed.end
        case Fault(error, at) =>
          Reading(records + [Record(setup.id, offset + at, Ended(last.Identity(), Decode(error)))], None)
        case Open(rest) => Reading(records, Some(Stand(last, rest)))
  }

  /** One more frame in front, typed and answered without ending the session, adds its record in front. */
  lemma TellFront(setup: Setup, state: Session.SessionState, raw: RawEnvelope, rest: Codec.Parsed, offset: nat)
    requires Positioned(rest) && Envelope.Typed(raw).Ok?
    requires Session.Alive(Session.Receive(setup.profile, state, Envelope.Typed(raw).value).1)
    ensures var width := HEADER_BYTES + |raw.payload|;
      var (next, verdict) := Session.Receive(setup.profile, state, Envelope.Typed(raw).value);
      Tell(setup, state, rest.After([raw], width), offset)
        == Tell(setup, next, rest, offset + width)
            .After([Record(setup.id, offset + width, KindFor(state.Identity(), verdict))])
  {
    hide Envelope.Typed, Session.Receive, Session.Trace, Session.Alive;
    hide CallsOf, StateAfter, EndAt, AliveCount, RecordsTo;
    FrontFacts(setup, state, raw, rest.frames, offset);
    var (next, verdict) := Session.Receive(setup.profile, state, Envelope.Typed(raw).value);
    var calls := CallsOf(rest.frames);
    var alive := AliveCount(Session.Trace(setup.profile, next, calls));
    RecordsFront(setup, state, raw, rest.frames, offset, if alive < |calls| then alive + 1 else |calls|);
  }

  /** What one more frame in front does to the parts of the telling. */
  lemma FrontFacts(setup: Setup, state: Session.SessionState, raw: RawEnvelope, rest: seq<RawEnvelope>, offset: nat)
    requires Envelope.Typed(raw).Ok?
    requires Session.Alive(Session.Receive(setup.profile, state, Envelope.Typed(raw).value).1)
    ensures var (next, verdict) := Session.Receive(setup.profile, state, Envelope.Typed(raw).value);
      var width, calls, frames := HEADER_BYTES + |raw.payload|, CallsOf(rest), [raw] + rest;
      && |CallsOf(frames)| == |calls| + 1
      && |Session.Trace(setup.profile, state, CallsOf(frames))| == |calls| + 1
      && AliveCount(Session.Trace(setup.profile, state, CallsOf(frames)))
           == 1 + AliveCount(Session.Trace(setup.profile, next, calls))
      && StateAfter(setup.profile, state, CallsOf(frames)) == StateAfter(setup.profile, next, calls)
      && (|calls| < |rest| ==>
            && frames[|calls| + 1] == rest[|calls|]
            && EndAt(frames, offset, |calls| + 2) == EndAt(rest, offset + width, |calls| + 1))
  {
    hide Envelope.Typed, Session.Receive, Session.Alive;
    var frames := [raw] + rest;
    var (next, verdict) := Session.Receive(setup.profile, state, Envelope.Typed(raw).value);
    var call, calls := Session.Message(Envelope.Typed(raw).value), CallsOf(rest);
    assert frames[1..] == rest && CallsOf(frames) == [call] + calls && ([call] + calls)[1..] == calls;
    var verdicts := Session.Trace(setup.profile, next, calls);
    assert Session.Trace(setup.profile, state, CallsOf(frames)) == [verdict] + verdicts;
    assert ([verdict] + verdicts)[1..] == verdicts;
  }

  lemma {:induction false} RecordsFront(setup: Setup, state: Session.SessionState, raw: RawEnvelope,
                                        frames: seq<RawEnvelope>, offset: nat, count: nat)
    requires Envelope.Typed(raw).Ok? && count <= |CallsOf(frames)|
    ensures |CallsOf([raw] + frames)| == |CallsOf(frames)| + 1
    ensures var width := HEADER_BYTES + |raw.payload|;
      var (next, verdict) := Session.Receive(setup.profile, state, Envelope.Typed(raw).value);
      RecordsTo(setup, state, [raw] + frames, offset, count + 1)
        == [Record(setup.id, offset + width, KindFor(state.Identity(), verdict))]
           + RecordsTo(setup, next, frames, offset + width, count)
  {
    hide Envelope.Typed, Session.Receive;
    var width, all := HEADER_BYTES + |raw.payload|, [raw] + frames;
    var (next, verdict) := Session.Receive(setup.profile, state, Envelope.Typed(raw).value);
    var call, calls := Session.Message(Envelope.Typed(raw).value), CallsOf(frames);
    assert all[1..] == frames && CallsOf(all) == [call] + calls && ([call] + calls)[1..] == calls;
    var front := [Record(setup.id, offset + width, KindFor(state.Identity(), verdict))];
    var whole := front + RecordsTo(setup, next, frames, offset + width, count);
    forall i | 0 <= i <= count
      ensures RecordAt(setup, state, all, offset, i) == whole[i]
    {
      assert EndAt(all, offset, i + 1) == EndAt(frames, offset + width, i);
      if i > 0 {
        assert ([call] + calls)[..i][1..] == calls[..i - 1];
      }
    }
  }

  /** Reading a stream is telling its parse. */
  lemma {:induction false} ReadIsTell(setup: Setup, state: Session.SessionState, bytes: seq<byte>, offset: nat)
    requires !state.SessionEnded?
    ensures Positioned(Codec.Parse(Codec.Raw, setup.payloadCapacity, bytes))
    ensures Read(setup, state, bytes, offset)
         == Tell(setup, state, Codec.Parse(Codec.Raw, setup.payloadCapacity, bytes), offset)
    decreases |bytes|
  {
    hide Framing.ParseFront, Envelope.Typed, Session.Receive, Tell;
    var front := Framing.ParseFront(Framing.AnyLength, setup.payloadCapacity, bytes);
    ParsePositioned(setup.payloadCapacity, bytes);
    if !front.Complete? {
      TellNoFrame(setup, state, Codec.Parse(Codec.Raw, setup.payloadCapacity, bytes), offset);
    } else {
      FrontFits(setup, bytes);
      var raw, width := front.frame, HEADER_BYTES + |front.frame.payload|;
      var rest := Codec.Parse(Codec.Raw, setup.payloadCapacity, bytes[width..]);
      var typed := Envelope.Typed(raw);
      ParsePositioned(setup.payloadCapacity, bytes[width..]);
      if typed.Err? {
        TellUntyped(setup, state, raw, rest, offset);
      } else {
        ReceiveAlive(setup.profile, state, typed.value);
        var (next, verdict) := Session.Receive(setup.profile, state, typed.value);
        if Session.Alive(verdict) {
          ReadIsTell(setup, next, bytes[width..], offset + width);
          TellFront(setup, state, raw, rest, offset);
        } else {
          TellLast(setup, state, raw, rest, offset);
        }
      }
    }
  }

  lemma TellNoFrame(setup: Setup, state: Session.SessionState, parsed: Codec.Parsed, offset: nat)
    requires Positioned(parsed) && parsed.frames == []
    ensures Tell(setup, state, parsed, offset) ==
      match parsed.end
      case Open(rest) => Reading([], Some(Stand(state, rest)))
      case Fault(error, at) => Reading([Record(setup.id, offset + at, Ended(state.Identity(), Decode(error)))], None)
  {
  }

  lemma TellUntyped(setup: Setup, state: Session.SessionState, raw: RawEnvelope, rest: Codec.Parsed, offset: nat)
    requires Positioned(rest) && Envelope.Typed(raw).Err?
    ensures var width := HEADER_BYTES + |raw.payload|;
      Tell(setup, state, rest.After([raw], width), offset)
        == Reading([Record(setup.id, offset + width,
                           Ended(state.Identity(), InvalidMessage(Envelope.Typed(raw).error)))], None)
  {
    hide Envelope.Typed;
    var frames := [raw] + rest.frames;
    assert frames[1..] == rest.frames && CallsOf(frames) == [];
    assert EndAt(frames, offset, 1) == offset + HEADER_BYTES + |raw.payload|;
    var records := RecordsTo(setup, state, frames, offset, 0);
    assert forall last: Record :: records + [last] == [last];
  }

  lemma FrontFits(setup: Setup, bytes: seq<byte>)
    requires Framing.ParseFront(Framing.AnyLength, setup.payloadCapacity, bytes).Complete?
    ensures HEADER_BYTES + |Framing.ParseFront(Framing.AnyLength, setup.payloadCapacity, bytes).frame.payload|
      <= |bytes|
  {
  }

  lemma {:induction false} ParsePositioned(capacity: nat, bytes: seq<byte>)
    ensures Positioned(Codec.Parse(Codec.Raw, capacity, bytes))
    decreases |bytes|
  {
    var front := Framing.ParseFront(Framing.AnyLength, capacity, bytes);
    if front.Complete? {
      ParsePositioned(capacity, bytes[HEADER_BYTES + |front.frame.payload|..]);
    }
  }

  /** A session that was running goes on exactly after an answer that does not end it. */
  lemma ReceiveAlive(profile: Session.IncomingProfile, state: Session.SessionState, message: TypedMessage)
    requires !state.SessionEnded?
    ensures var (next, verdict) := Session.Receive(profile, state, message);
      Session.Alive(verdict) <==> !next.SessionEnded?
  {
  }

  lemma TellLast(setup: Setup, state: Session.SessionState, raw: RawEnvelope, rest: Codec.Parsed, offset: nat)
    requires Positioned(rest) && Envelope.Typed(raw).Ok?
    requires !Session.Alive(Session.Receive(setup.profile, state, Envelope.Typed(raw).value).1)
    ensures var width := HEADER_BYTES + |raw.payload|;
      var verdict := Session.Receive(setup.profile, state, Envelope.Typed(raw).value).1;
      Tell(setup, state, rest.After([raw], width), offset)
        == Reading([Record(setup.id, offset + width, KindFor(state.Identity(), verdict))], None)
  {
    hide Envelope.Typed, Session.Receive;
    RecordsFront(setup, state, raw, rest.frames, offset, 0);
  }

  /** However the stream is cut, what the raw decoder returns tells the one reading of the whole. */
  lemma {:induction false} ChunksTellReading(setup: Setup, chunks: seq<seq<byte>>)
    ensures var drained := Codec.DrainAll(Codec.Raw, setup.payloadCapacity, Framing.Live([]), chunks);
      Positioned(drained) && Tell(setup, Session.AwaitingUuid, drained, 0) == ReadAll(setup, Flatten(chunks))
  {
    hide Codec.Parse, Codec.DrainAll, Tell, Read;
    Codec.FragmentationInvariance(Codec.Raw, setup.payloadCapacity, [], chunks);
    assert [] + Flatten(chunks) == Flatten(chunks);
    Codec.AfterNothing(Codec.Parse(Codec.Raw, setup.payloadCapacity, Flatten(chunks)), 0);
    ReadIsTell(setup, Session.AwaitingUuid, Flatten(chunks), 0);
  }

  /** The identity that the records before `i` established. */
  function StartedBy(records: seq<Record>, i: nat): Option<Uuid>
    requires i <= |records|
  {
    if i > 0 && records[0].kind.Started? then Some(records[0].kind.uuid) else None
  }

  predicate LegalAt(profile: Session.IncomingProfile, records: seq<Record>, i: nat)
    requires i < |records|
  {
    match records[i].kind
    case Started(_) => i == 0
    case AudioBytes(uuid, rate, _) => StartedBy(records, i) == Some(uuid) && profile.Accepts(rate)
    case Dtmf(uuid, digit) => StartedBy(records, i) == Some(uuid) && Session.AcceptedDigit(digit)
    case Ended(identity, _) => i == |records| - 1 && identity == StartedBy(records, i)
    case _ => false
  }

  /** The incoming policy, read off records alone: one start first, its own admitted media, one end last. */
  predicate LegalRecords(profile: Session.IncomingProfile, records: seq<Record>) {
    forall i :: 0 <= i < |records| ==> LegalAt(profile, records, i)
  }

  /** The trace of one call and the trace of the others. */
  lemma TraceFront(profile: Session.IncomingProfile, state: Session.SessionState, calls: seq<Session.Call>)
    requires calls != []
    ensures var (next, verdict) := Session.Answer(profile, state, calls[0]);
      var verdicts, rest := Session.Trace(profile, state, calls), Session.Trace(profile, next, calls[1..]);
      && verdicts == [verdict] + rest && verdicts[0] == verdict
      && forall i :: 0 <= i < |rest| ==> rest[i] == verdicts[i + 1]
  {
    hide Session.Answer;
    var (next, verdict) := Session.Answer(profile, state, calls[0]);
    assert Session.Trace(profile, state, calls) == [verdict] + Session.Trace(profile, next, calls[1..]);
    hide *;
  }

  lemma {:induction false} StaysWith(profile: Session.IncomingProfile, uuid: Uuid, calls: seq<Session.Call>, count: nat)
    requires count <= |calls|
    requires forall i :: 0 <= i < count ==> Session.Alive(Session.Trace(profile, Session.Active(uuid), calls)[i])
    ensures StateAfter(profile, Session.Active(uuid), calls[..count]) == Session.Active(uuid)
    decreases |calls|
  {
    if count > 0 {
      var (next, verdict) := Session.Answer(profile, Session.Active(uuid), calls[0]);
      var verdicts := Session.Trace(profile, Session.Active(uuid), calls);
      assert verdicts == [verdict] + Session.Trace(profile, next, calls[1..]);
      assert Session.Alive(verdicts[0]) && next == Session.Active(uuid);
      assert forall i :: 0 <= i < count - 1 ==> Session.Trace(profile, next, calls[1..])[i] == verdicts[i + 1];
      StaysWith(profile, uuid, calls[1..], count - 1);
      assert calls[..count][1..] == calls[1..][..count - 1];
    }
  }

  /** The state after verdicts that did not end the session. */
  lemma StateOfAlive(profile: Session.IncomingProfile, calls: seq<Session.Call>, count: nat)
    requires 0 < count <= |calls|
    requires forall i :: 0 <= i < count ==> Session.Alive(Session.Trace(profile, Session.AwaitingUuid, calls)[i])
    ensures var first := Session.Trace(profile, Session.AwaitingUuid, calls)[0];
      && first.Ok? && first.value.Started?
      && StateAfter(profile, Session.AwaitingUuid, calls[..count]) == Session.Active(first.value.uuid)
  {
    TraceFront(profile, Session.AwaitingUuid, calls);
    hide Session.Trace;
    var (next, verdict) := Session.Answer(profile, Session.AwaitingUuid, calls[0]);
    assert Session.Alive(verdict);
    StaysWith(profile, next.uuid, calls[1..], count - 1);
    assert calls[..count][1..] == calls[1..][..count - 1];
  }

  /** How the event of call `i` fits the identity held before it, when call `last` ends the session. */
  predicate EventLegal(profile: Session.IncomingProfile, event: Session.IncomingEvent, identity: Option<Uuid>,
                       i: nat, last: nat)
  {
    match event
    case Started(_) => i == 0
    case AudioEvent(uuid, rate, _) => identity == Some(uuid) && profile.Accepts(rate)
    case DtmfEvent(uuid, digit) => identity == Some(uuid) && Session.AcceptedDigit(digit)
    case Ended(named, _) => named == identity && i == last
  }

  /** Verdicts of a legal trace, one by one, before and at the one that ends the session. */
  lemma VerdictLegal(profile: Session.IncomingProfile, calls: seq<Session.Call>, i: nat)
    requires var verdicts := Session.Trace(profile, Session.AwaitingUuid, calls);
      i < |calls| && i <= AliveCount(verdicts)
    ensures var verdicts := Session.Trace(profile, Session.AwaitingUuid, calls);
      var identity := StateAfter(profile, Session.AwaitingUuid, calls[..i]).Identity();
      && (i > 0 ==> verdicts[0].Ok? && verdicts[0].value.Started? && identity == Some(verdicts[0].value.uuid))
      && (i == 0 ==> identity == None)
      && (verdicts[i].Ok? ==> EventLegal(profile, verdicts[i].value, identity, i, AliveCount(verdicts)))
  {
    var verdicts := Session.Trace(profile, Session.AwaitingUuid, calls);
    Session.TraceIsLegal(profile, calls);
    if i > 0 {
      StateOfAlive(profile, calls, i);
      var uuid := verdicts[0].value.uuid;
      var tail := verdicts[1..];
      var live :| 0 <= live <= |tail| && Session.SplitsAt(profile, uuid, tail, live);
      assert verdicts[i] == tail[i - 1];
      assert forall k :: 0 <= k < |tail| ==> tail[k] == verdicts[k + 1];
      assert i - 1 <= live;
    }
  }

  /** The records of a reading keep the policy; when the stream stays open, they name the session that stands. */
  lemma {:induction false} TellIsLegal(setup: Setup, parsed: Codec.Parsed, offset: nat)
    requires Positioned(parsed)
    ensures var reading := Tell(setup, Session.AwaitingUuid, parsed, offset);
      && LegalRecords(setup.profile, reading.records)
      && (reading.stand.Some? ==>
            && reading.stand.value.session.Identity() == StartedBy(reading.records, |reading.records|)
            && forall record <- reading.records :: !record.kind.Ended?)
  {
    hide Envelope.Typed, Session.Trace, StateAfter, EndAt, CallsOf;
    var reading := Tell(setup, Session.AwaitingUuid, parsed, offset);
    var calls := CallsOf(parsed.frames);
    var verdicts := Session.Trace(setup.profile, Session.AwaitingUuid, calls);
    var alive := AliveCount(verdicts);
    forall i | 0 <= i < |calls| && i <= alive
      ensures LegalAt(setup.profile, reading.records, i)
      ensures i < alive ==> !reading.records[i].kind.Ended?
    {
      VerdictLegal(setup.profile, calls, i);
    }
    if alive == |calls| {
      StandIdentity(setup.profile, calls);
    }
  }

  /** After a trace that never ended the session, the session holds the identity of its start. */
  lemma StandIdentity(profile: Session.IncomingProfile, calls: seq<Session.Call>)
    requires AliveCount(Session.Trace(profile, Session.AwaitingUuid, calls)) == |calls|
    ensures var verdicts := Session.Trace(profile, Session.AwaitingUuid, calls);
      var identity := StateAfter(profile, Session.AwaitingUuid, calls).Identity();
      if calls == [] then identity == None
      else verdicts[0].Ok? && verdicts[0].value.Started? && identity == Some(verdicts[0].value.uuid)
  {
    if calls != [] {
      StateOfAlive(profile, calls, |calls|);
      assert calls[..|calls|] == calls;
    }
  }

  lemma PrefixLegal(profile: Session.IncomingProfile, shorter: seq<Record>, longer: seq<Record>)
    requires shorter <= longer && LegalRecords(profile, longer)
    ensures LegalRecords(profile, shorter)
  {
    forall i | 0 <= i < |shorter|
      ensures LegalAt(profile, shorter, i)
    {
      assert LegalAt(profile, longer, i);
    }
  }

  /** Over every schedule, the protocol records that a connection hands over keep the incoming policy. */
  lemma {:induction false} DeliveredIsLegal(setup: Setup, events: seq<Connection.Event>)
    requires Delivery.Bound(setup)
    ensures LegalRecords(setup.profile, ProtocolOf(Connection.Run(setup, events).sent))
  {
    hide Connection.Run, Connection.Next, Tell, Codec.Parse, ReadAll, LegalRecords, Delivery.Covered;
    var task := Connection.Run(setup, events);
    var told := ProtocolOf(task.sent);
    Delivery.DeliveredIsPrefix(setup, events, []);
    assert task.observed + [] == task.observed;
    ReadingIsLegal(setup, task.observed);
    var reading := ReadAll(setup, task.observed);
    if told != [] && Delivery.External(told[|told| - 1]) {
      EndAddedLegal(setup.profile, told);
    } else {
      PrefixLegal(setup.profile, told, reading.records);
    }
  }

  lemma {:induction false} ReadingIsLegal(setup: Setup, stream: seq<byte>)
    ensures var reading := ReadAll(setup, stream);
      && LegalRecords(setup.profile, reading.records)
      && (reading.stand.Some? ==>
            && reading.stand.value.session.Identity() == StartedBy(reading.records, |reading.records|)
            && forall record <- reading.records :: !record.kind.Ended?)
  {
    hide Tell, Codec.Parse, Read, LegalRecords;
    ReadIsTell(setup, Session.AwaitingUuid, stream, 0);
    TellIsLegal(setup, Codec.Parse(Codec.Raw, setup.payloadCapacity, stream), 0);
  }

  /** An end from outside after legal records that have not ended, with the identity they established. */
  lemma EndAddedLegal(profile: Session.IncomingProfile, told: seq<Record>)
    requires told != [] && told[|told| - 1].kind.Ended?
    requires LegalRecords(profile, told[..|told| - 1])
    requires forall record <- told[..|told| - 1] :: !record.kind.Ended?
    requires told[|told| - 1].kind.identity == StartedBy(told, |told| - 1)
    ensures LegalRecords(profile, told)
  {
    var before := told[..|told| - 1];
    forall i | 0 <= i < |told|
      ensures LegalAt(profile, told, i)
    {
      if i < |before| { assert LegalAt(profile, before, i); }
    }
  }
}
