/** What a connection delivers, over every schedule of polls, reads, waits, refusals and cancellation. */
module Delivery {
  import opened Wire
  import opened Records
  import opened Meaning
  import opened Framing
  import opened Connection
  import Envelope
  import Session

  /** The check made when a receiver is bound: one read and one payload each fit the byte budget. */
  predicate Bound(setup: Setup) {
    setup.budgetCapacity >= READ_BYTES && setup.budgetCapacity >= setup.payloadCapacity
  }

  /** Ends that come from the transport or the counters, not from the stream's content. */
  predicate External(record: Record) {
    && record.kind.Ended?
    && (record.kind.reason.CleanEof? || record.kind.reason.Truncated? || record.kind.reason.Transport?
        || record.kind.reason.OffsetExhausted?)
  }

  predicate Bounded(setup: Setup, kind: RecordKind) {
    match kind
    case AudioBytes(_, rate, bytes) => |bytes| % 2 == 0 && setup.profile.Accepts(rate)
    case _ => true
  }

  /** Counters against histories. */
  predicate Counted(task: Task) {
    && |task.observed| == task.read <= U64_MAX
    && |task.sent| == task.recordsQueued <= U64_MAX
    && task.wireQueued <= task.read
    && RawBytes(task.sent) == task.observed[..task.wireQueued]
    && task.consumed <= task.wireQueued
  }

  /** A protocol record in hand: made at the current position, by a session that ended exactly if it is final. */
  predicate InHand(setup: Setup, task: Task, record: Record, resume: Resume) {
    && record.Protocol()
    && record.offset == task.consumed
    && Bounded(setup, record.kind)
    && (record.kind.Started? ==> task.session == Session.Active(record.kind.uuid))
    && ((record.kind.AudioBytes? || record.kind.Dtmf?) ==> task.session == Session.Active(record.kind.uuid))
    && (resume == ToStop ==> record.kind.Ended?)
    && (resume == ToObserved ==>
        && task.decoder == Live([])
        && !External(record)
        && (record.kind.Ended? <==> task.session.SessionEnded?))
  }

  /** What holds at each suspension point of a task that is still running. */
  predicate Shape(setup: Setup, task: Task) {
    && Settled(AnyLength, setup.payloadCapacity, task.decoder)
    && (task.decoder.Live? ==> |task.decoder.partial| <= task.consumed)
    && match task.pc
       case Sending(record, ToRead) =>
         && record == Record(setup.id, 0, Connected)
         && task.sent == [] && task.observed == [] && task.input == []
         && task.decoder == Live([]) && task.session == Session.AwaitingUuid
       case Sending(record, ToDecode) =>
         && record == Record(setup.id, task.wireQueued, WireBytes(task.input))
         && NewChunk(task)
       case Copying(bytes, ForWire(start)) =>
         bytes == task.input && start == task.wireQueued && NewChunk(task) && |bytes| <= READ_BYTES
       case Sending(record, resume) =>
         record.connection == setup.id && Decoded(task) && InHand(setup, task, record, resume)
       case AwaitingRead => Decoded(task) && Open(task) && task.input == []
       case BeforeFeed => Decoded(task) && Open(task)
       case BeforeTyped(raw) =>
         Decoded(task) && Open(task) && task.decoder == Live([]) && |raw.payload| <= setup.payloadCapacity
       case Copying(bytes, ForAudio(uuid, rate)) =>
         && Decoded(task) && task.decoder == Live([])
         && task.session == Session.Active(uuid)
         && |bytes| <= setup.payloadCapacity && |bytes| % 2 == 0 && setup.profile.Accepts(rate)
       case Copying(bytes, ForPeerError(_)) =>
         && Decoded(task) && task.decoder == Live([])
         && task.session == Session.SessionEnded && |bytes| <= setup.payloadCapacity
       case Done => true
  }

  predicate Open(task: Task) {
    task.decoder.Live? && !task.session.SessionEnded?
  }

  /** A chunk was read and is not handed off yet; all before it was decoded. */
  predicate NewChunk(task: Task) {
    && Open(task)
    && task.input != []
    && task.consumed == task.wireQueued
    && task.wireQueued + |task.input| == task.read
    && task.wireQueued <= |task.observed| && task.observed[task.wireQueued..] == task.input
  }

  /** All observed bytes were handed off; the undecoded ones are the rest of the chunk. */
  predicate Decoded(task: Task) {
    task.wireQueued == task.read && task.consumed + |task.input| == task.read
  }

  /** Records decided but not yet accepted by the channel. */
  function Todo(setup: Setup, task: Task): seq<Record> {
    match task.pc
    case Sending(record, _) => if record.Protocol() then [record] else []
    case Copying(bytes, ForAudio(uuid, rate)) => [Record(setup.id, task.consumed, AudioBytes(uuid, rate, bytes))]
    case Copying(bytes, ForPeerError(identity)) =>
      [Record(setup.id, task.consumed, Ended(identity, PeerFailure(bytes)))]
    case _ => []
  }

  /** What the undecoded bytes mean, with `more` still to arrive. */
  function Outlook(setup: Setup, task: Task, more: seq<byte>): Reading
    requires Shape(setup, task)
  {
    if task.session.SessionEnded? || task.decoder.Broken? || (task.pc.Sending? && task.pc.resume == ToStop) then
      Reading([], None)
    else
      match task.pc
      case BeforeTyped(raw) => ReadFrame(setup, task.session, raw, task.input + more, task.consumed)
      case _ =>
        var partial := task.decoder.partial;
        Read(setup, task.session, partial + task.input + more, task.consumed - |partial|)
  }

  /** Sent, decided and undecoded together are what the whole stream means, whatever arrives later. */
  predicate Agrees(setup: Setup, task: Task, more: seq<byte>)
    requires Shape(setup, task)
  {
    var all, outlook := ReadAll(setup, task.observed + more), Outlook(setup, task, more);
    && all.stand == outlook.stand
    && all.records == ProtocolOf(task.sent) + Todo(setup, task) + outlook.records
  }

  /** `record` ends from outside a stream whose content is fully told by `told`. */
  predicate EndsOutside(setup: Setup, observed: seq<byte>, told: seq<Record>, record: Record) {
    var all := ReadAll(setup, observed);
    && External(record)
    && all.records == told
    && all.stand.Some?
    && record.offset == |observed|
    && record.kind.identity == all.stand.value.session.Identity()
    && (record.kind.reason.CleanEof? || record.kind.reason.Truncated? ==>
        record == EofRecord(setup, all.stand.value, |observed|))
  }

  predicate EndingOutside(task: Task) {
    task.pc.Sending? && External(task.pc.record)
  }

  /** What a stopped task has told: a prefix, or all of it when its last record was accepted. */
  ghost predicate Told(setup: Setup, task: Task) {
    var told := ProtocolOf(task.sent);
    if !task.terminalQueued then
      forall more :: told <= ReadAll(setup, task.observed + more).records
    else if told != [] && External(told[|told| - 1]) then
      EndsOutside(setup, task.observed, told[..|told| - 1], told[|told| - 1])
    else
      forall more :: ReadAll(setup, task.observed + more) == Reading(told, None)
  }

  ghost predicate Tells(setup: Setup, task: Task)
    requires Shape(setup, task)
  {
    if task.pc.Done? then Told(setup, task)
    else if EndingOutside(task) then EndsOutside(setup, task.observed, ProtocolOf(task.sent), task.pc.record)
    else forall more :: Agrees(setup, task, more)
  }

  /** A running task has queued no end, and a record in hand is what `pendingRecord` reports. */
  predicate Flags(task: Task) {
    && (task.terminalQueued ==> task.pc.Done? && !task.pendingRecord)
    && (!task.pc.Done? ==> (task.pendingRecord <==> task.pc.Sending?))
    && (task.terminalQueued <==> (exists i :: 0 <= i < |task.sent| && task.sent[i].kind.Ended?))
    && (forall i :: 0 <= i < |task.sent| && task.sent[i].kind.Ended? ==> i == |task.sent| - 1)
  }

  ghost predicate Inv(setup: Setup, task: Task) {
    Counted(task) && Flags(task) && Shape(setup, task) && Tells(setup, task)
  }

  lemma StartInv(setup: Setup)
    ensures Inv(setup, Start(setup))
  {
    var task := Start(setup);
    forall more: seq<byte>
      ensures Agrees(setup, task, more)
    {
      assert [] + more == more && [] + [] + more == more;
      assert task.observed + more == more;
    }
  }

  /** From a running task to a stopped one without a final record: what was sent is a prefix. */
  lemma StopInv(setup: Setup, task: Task, stopped: Task)
    requires Inv(setup, task) && !task.pc.Done?
    requires stopped == task.(pc := Done, counterOverflow := stopped.counterOverflow)
    ensures Inv(setup, stopped)
  {
    hide ReadAll, Read, ReadFrame;
    forall more: seq<byte>
      ensures ProtocolOf(stopped.sent) <= ReadAll(setup, stopped.observed + more).records
    {
      if EndingOutside(task) {
        ExternalStand(setup, task.observed, more);
      } else {
        assert Agrees(setup, task, more);
      }
    }
  }

  /** Reading a longer stream only adds records. */
  lemma {:induction false} ReadGrows(setup: Setup, session: Session.SessionState, bytes: seq<byte>,
                                     more: seq<byte>, offset: nat)
    ensures Read(setup, session, bytes, offset).records <= Read(setup, session, bytes + more, offset).records
    decreases |bytes|
  {
    hide ParseFront, FrameMeaning;
    var front := ParseFront(AnyLength, setup.payloadCapacity, bytes);
    if !front.Incomplete? {
      FrontStable(AnyLength, setup.payloadCapacity, bytes, more);
      if front.Complete? {
        var width := front.Width();
        var rest := bytes[width..];
        assert (bytes + more)[width..] == rest + more;
        var (kind, next) := FrameMeaning(setup, session, front.frame);
        if next.Some? {
          ReadGrows(setup, next.value, rest, more, offset + width);
        }
      }
    }
  }

  lemma ExternalStand(setup: Setup, observed: seq<byte>, more: seq<byte>)
    ensures ReadAll(setup, observed).records <= ReadAll(setup, observed + more).records
  {
    ReadGrows(setup, Session.AwaitingUuid, observed, more, 0);
  }

  lemma SendInv(setup: Setup, task: Task)
    requires Inv(setup, task) && task.pc.Sending?
    ensures Inv(setup, Send(task))
  {
    assert task.recordsQueued <= U64_MAX;
    hide ReadAll, Read, ReadFrame, Tells, Shape, Counted, AfterSend;
    if task.recordsQueued == U64_MAX {
      StopInv(setup, task, Send(task));
    } else {
      SendShape(setup, task);
      SendCounted(task);
      SendFlags(task);
      SendTells(setup, task);
    }
  }

  lemma SendShape(setup: Setup, task: Task)
    requires Shape(setup, task) && Counted(task) && task.pc.Sending? && task.recordsQueued < U64_MAX
    ensures Shape(setup, Send(task))
    ensures task.pc.record.kind.Ended? ==> Send(task).pc.Done?
    ensures task.pc.record.kind.WireBytes? ==> NewChunk(task) && task.pc.record.kind.bytes == task.input
  {
    hide Settled;
  }

  lemma SendCounted(task: Task)
    requires Counted(task) && task.pc.Sending? && task.recordsQueued < U64_MAX
    requires task.pc.record.kind.WireBytes? ==> NewChunk(task) && task.pc.record.kind.bytes == task.input
    ensures Counted(Send(task))
  {
    hide RawBytes, ProtocolOf;
    Appended(task.sent, task.pc.record);
    if task.pc.record.kind.WireBytes? {
      assert task.observed == task.observed[..task.wireQueued] + task.input;
    }
  }

  lemma SendFlags(task: Task)
    requires Flags(task) && task.pc.Sending? && task.recordsQueued < U64_MAX
    requires task.pc.record.kind.Ended? ==> Send(task).pc.Done?
    ensures Flags(Send(task))
  {
    var next := Send(task);
    assert next.sent == task.sent + [task.pc.record];
    if task.pc.record.kind.Ended? {
      assert next.sent[|task.sent|] == task.pc.record;
    }
  }

  lemma SendTells(setup: Setup, task: Task)
    requires Shape(setup, task) && Tells(setup, task) && !task.terminalQueued
    requires task.pc.Sending? && task.recordsQueued < U64_MAX
    requires Shape(setup, Send(task))
    ensures Tells(setup, Send(task))
  {
    hide ReadAll, Read, ReadFrame, Shape, Outlook, AfterSend;
    var next := Send(task);
    Appended(task.sent, task.pc.record);
    SendOutlook(setup, task, []);
    var told := ProtocolOf(next.sent);
    assert told == ProtocolOf(task.sent) + Todo(setup, task);
    if EndingOutside(task) {
      assert told[..|told| - 1] == ProtocolOf(task.sent);
    } else {
      forall more: seq<byte>
        ensures next.pc.Done? ==> ReadAll(setup, next.observed + more) == Reading(told, None)
        ensures !next.pc.Done? ==> Agrees(setup, next, more)
      {
        assert Agrees(setup, task, more);
        SendOutlook(setup, task, more);
        assert told + [] == told;
      }
    }
  }

  /** Handing a record over does not change what the undecoded bytes mean. */
  lemma SendOutlook(setup: Setup, task: Task, more: seq<byte>)
    requires Shape(setup, task) && task.pc.Sending? && task.recordsQueued < U64_MAX
    requires Shape(setup, Send(task))
    ensures Send(task).observed == task.observed && Send(task).sent == task.sent + [task.pc.record]
    ensures Send(task).pc.Done? <==> task.pc.record.kind.Ended?
    ensures Send(task).terminalQueued == (task.terminalQueued || task.pc.record.kind.Ended?)
    ensures Send(task).pc.Done? ==> Outlook(setup, task, more) == Reading([], None)
    ensures !Send(task).pc.Done? ==>
      && Outlook(setup, Send(task), more) == Outlook(setup, task, more)
      && Todo(setup, Send(task)) == []
      && !EndingOutside(Send(task))
  {
    hide Read, ReadFrame, Settled;
  }

  lemma ReadInv(setup: Setup, task: Task, chunk: seq<byte>)
    requires Inv(setup, task) && task.pc.AwaitingRead? && 0 < |chunk| <= READ_BYTES
    ensures Inv(setup, ObserveRead(setup, task, chunk))
  {
    hide ReadAll, Read, ReadFrame;
    var next := ObserveRead(setup, task, chunk);
    if task.read + |chunk| > U64_MAX {
      OutsideInv(setup, task, next.pc.record);
    } else {
      assert next.observed[..next.wireQueued] == task.observed;
      assert task.observed[..task.wireQueued] == task.observed;
      var partial := task.decoder.partial;
      forall more: seq<byte>
        ensures Agrees(setup, next, more)
      {
        assert Agrees(setup, task, chunk + more);
        assert task.observed + (chunk + more) == next.observed + more;
        assert partial + [] + (chunk + more) == partial + chunk + more;
      }
    }
  }

  /** At a read point the stream's content is fully told. */
  lemma OutsideInv(setup: Setup, task: Task, record: Record)
    requires Inv(setup, task) && task.pc.AwaitingRead?
    requires External(record) && record.offset == task.consumed
    requires record.kind.identity == task.session.Identity()
    requires record.kind.reason.CleanEof? || record.kind.reason.Truncated? ==>
      record == EofRecord(setup, Stand(task.session, task.decoder.partial), task.consumed)
    ensures EndsOutside(setup, task.observed, ProtocolOf(task.sent), record)
  {
    assert Agrees(setup, task, []);
    var partial := task.decoder.partial;
    assert partial + [] + [] == partial && task.observed + [] == task.observed;
  }

  lemma EofInv(setup: Setup, task: Task)
    requires Inv(setup, task) && task.pc.AwaitingRead?
    ensures Inv(setup, EndOfStream(setup, task))
  {
    hide ReadAll, Read, ReadFrame;
    OutsideInv(setup, task, EndOfStream(setup, task).pc.record);
  }

  lemma CopyInv(setup: Setup, task: Task)
    requires Bound(setup) && Inv(setup, task) && task.pc.Copying?
    ensures Inv(setup, CopyDone(setup, task))
  {
    hide ReadAll, Read, ReadFrame;
    var next := CopyDone(setup, task);
    forall more: seq<byte>
      ensures Agrees(setup, next, more)
    {
      assert Agrees(setup, task, more);
    }
  }

  lemma FrameFits(rule: HeaderRule, capacity: nat, bytes: seq<byte>)
    requires ParseFront(rule, capacity, bytes).Complete?
    ensures |ParseFront(rule, capacity, bytes).frame.payload| <= capacity
  {
  }

  lemma FeedInv(setup: Setup, task: Task)
    requires Inv(setup, task) && task.pc.BeforeFeed?
    ensures Inv(setup, FeedStep(setup, task))
  {
    hide ParseFront, Read, ReadFrame, Tells;
    var fed := Advance(AnyLength, setup.payloadCapacity, task.decoder, task.input);
    if fed.outcome.Frame? {
      FrameFits(AnyLength, setup.payloadCapacity, task.decoder.partial + task.input);
    }
    assert Shape(setup, FeedStep(setup, task));
    FeedTells(setup, task);
  }

  lemma FeedTells(setup: Setup, task: Task)
    requires Inv(setup, task) && task.pc.BeforeFeed?
    requires Shape(setup, FeedStep(setup, task))
    ensures Tells(setup, FeedStep(setup, task))
  {
    hide ParseFront, FrameMeaning;
    var next := FeedStep(setup, task);
    var partial, input := task.decoder.partial, task.input;
    var fed := Advance(AnyLength, setup.payloadCapacity, task.decoder, input);
    forall more: seq<byte>
      ensures Agrees(setup, next, more)
    {
      assert Agrees(setup, task, more);
      var whole := partial + input + more;
      if fed.outcome.NeedInput? {
        assert (partial + input) + [] + more == whole;
      } else {
        FrontStable(AnyLength, setup.payloadCapacity, partial + input, more);
        assert whole[|partial| + fed.consumed..] == input[fed.consumed..] + more;
      }
    }
  }

  lemma TypedInv(setup: Setup, task: Task)
    requires Inv(setup, task) && task.pc.BeforeTyped?
    ensures Inv(setup, TypedStep(setup, task, task.pc.raw))
  {
    hide ReadAll, Read, ReadFrame, Tells, Shape;
    TypedShape(setup, task);
    TypedTells(setup, task);
    TypedEffects(setup, task);
  }

  /** What a running session makes of a message: the answer tells the next state. */
  lemma ReceiveEffects(profile: Session.IncomingProfile, state: Session.SessionState, message: TypedMessage)
    requires !state.SessionEnded?
    ensures var (next, verdict) := Session.Receive(profile, state, message);
      && (verdict.Err? ==> next.SessionEnded?)
      && (verdict.Ok? ==> match verdict.value
          case Started(uuid) => state.AwaitingUuid? && next == Session.Active(uuid)
          case AudioEvent(uuid, rate, payload) =>
            next == state == Session.Active(uuid) && profile.Accepts(rate) && message == Audio(rate, payload)
          case DtmfEvent(uuid, _) => next == state == Session.Active(uuid)
          case Ended(identity, EndTerminate) => next.SessionEnded? && identity == state.Identity()
          case Ended(identity, EndPeerError(payload)) =>
            next.SessionEnded? && message == PeerError(payload) && identity == state.Identity()
          case Ended(_, EndOfInput) => false)
  {
  }

  lemma TypedPayload(raw: RawEnvelope, message: TypedMessage)
    requires Envelope.Typed(raw) == Ok(message)
    ensures message.Audio? || message.PeerError? ==> message.payload == raw.payload
    ensures message.Audio? ==> |raw.payload| % 2 == 0
  {
  }

  lemma TypedShape(setup: Setup, task: Task)
    requires Shape(setup, task) && task.pc.BeforeTyped?
    ensures Shape(setup, TypedStep(setup, task, task.pc.raw))
  {
    hide Settled, Session.Receive, Envelope.Typed, Session.IncomingProfile.Accepts;
    var typed := Envelope.Typed(task.pc.raw);
    if typed.Ok? {
      TypedPayload(task.pc.raw, typed.value);
      ReceiveEffects(setup.profile, task.session, typed.value);
    }
  }

  /** A typed frame leaves in hand exactly the record the frame means. */
  lemma TypedTells(setup: Setup, task: Task)
    requires Inv(setup, task) && task.pc.BeforeTyped?
    requires Shape(setup, TypedStep(setup, task, task.pc.raw))
    ensures Tells(setup, TypedStep(setup, task, task.pc.raw))
  {
    hide ReadAll, Read, Shape, Envelope.Typed;
    var raw := task.pc.raw;
    var next := TypedStep(setup, task, raw);
    var (kind, session) := FrameMeaning(setup, task.session, raw);
    assert Todo(setup, next) == [Record(setup.id, task.consumed, kind)];
    TypedEffects(setup, task);
    forall more: seq<byte>
      ensures Agrees(setup, next, more)
    {
      assert Agrees(setup, task, more);
      assert [] + task.input + more == task.input + more;
      var rest := Outlook(setup, next, more);
      var record := Record(setup.id, task.consumed, kind);
      assert [record] + [] == [record];
      assert Outlook(setup, task, more) == rest.After([record]);
      assert ProtocolOf(task.sent) + [] == ProtocolOf(task.sent);
    }
  }

  lemma TypedEffects(setup: Setup, task: Task)
    requires Shape(setup, task) && task.pc.BeforeTyped?
    ensures var next := TypedStep(setup, task, task.pc.raw);
      var session := FrameMeaning(setup, task.session, task.pc.raw).1;
      && Open(task)
      && next.observed == task.observed && next.sent == task.sent && next.input == task.input
      && next.consumed == task.consumed && next.decoder == Live([])
      && !EndingOutside(next) && !next.pc.BeforeTyped? && !next.pc.Done?
      && (session.Some? ==> next.session == session.value && !next.session.SessionEnded?
                            && !(next.pc.Sending? && next.pc.resume == ToStop))
      && (session.None? ==> next.session.SessionEnded? || (next.pc.Sending? && next.pc.resume == ToStop))
  {
    hide Envelope.Typed, Settled, Session.Receive, Session.IncomingProfile.Accepts;
    var typed := Envelope.Typed(task.pc.raw);
    if typed.Ok? {
      ReceiveEffects(setup.profile, task.session, typed.value);
    }
  }

  /** Every step of a task keeps the invariant. */
  lemma NextInv(setup: Setup, task: Task, event: Event)
    requires Bound(setup) && Inv(setup, task)
    ensures Inv(setup, Next(setup, task, event))
  {
    hide Counted, Flags, Tells;
    var next := Next(setup, task, event);
    if next == task {
    } else if event.Cancelled? || event.ConsumerGone? {
      StopInv(setup, task, next);
    } else {
      match task.pc
      case Sending(_, _) => SendInv(setup, task);
      case AwaitingRead =>
        if event.ReadChunk? { ReadInv(setup, task, event.chunk); }
        else if event.ReadEof? { EofInv(setup, task); }
        else { ErrorInv(setup, task); }
      case Copying(_, _) => CopyInv(setup, task);
      case BeforeFeed => FeedInv(setup, task);
      case BeforeTyped(raw) => TypedInv(setup, task);
    }
  }

  lemma ErrorInv(setup: Setup, task: Task)
    requires Inv(setup, task) && task.pc.AwaitingRead?
    ensures Inv(setup, Next(setup, task, ReadError))
  {
    hide ReadAll, Read, ReadFrame;
    OutsideInv(setup, task, Next(setup, task, ReadError).pc.record);
  }

  lemma {:induction false} RunInv(setup: Setup, events: seq<Event>)
    requires Bound(setup)
    ensures Inv(setup, Run(setup, events))
  {
    hide Inv, Next, Start;
    if events == [] {
      StartInv(setup);
    } else {
      RunInv(setup, events[..|events| - 1]);
      NextInv(setup, Run(setup, events[..|events| - 1]), events[|events| - 1]);
    }
  }

  /** The delivered protocol records, without an end that came from outside the stream's content. */
  function Content(sent: seq<Record>): seq<Record> {
    var told := ProtocolOf(sent);
    if told != [] && External(told[|told| - 1]) then told[..|told| - 1] else told
  }

  /** The raw bytes handed off before a protocol record reach at least to the position it names. */
  predicate Covered(sent: seq<Record>) {
    forall i :: 0 <= i < |sent| && sent[i].Protocol() ==> sent[i].offset <= |RawBytes(sent[..i])|
  }

  lemma CoveredMore(sent: seq<Record>, record: Record)
    requires Covered(sent) && (record.Protocol() ==> record.offset <= |RawBytes(sent)|)
    ensures Covered(sent + [record])
  {
    var more := sent + [record];
    forall i | 0 <= i < |more| && more[i].Protocol()
      ensures more[i].offset <= |RawBytes(more[..i])|
    {
      assert more[..i] == if i < |sent| then sent[..i] else sent;
    }
  }

  lemma NextCovers(setup: Setup, task: Task, event: Event)
    requires Inv(setup, task) && Covered(task.sent)
    ensures Covered(Next(setup, task, event).sent)
  {
    hide Covered, Tells, Flags, FeedStep, TypedStep, CopyDone, EndOfStream, ObserveRead;
    StepSends(setup, task, event);
    if Next(setup, task, event).sent != task.sent {
      CoveredMore(task.sent, task.pc.record);
    }
  }

  lemma {:induction false} RunCovers(setup: Setup, events: seq<Event>)
    requires Bound(setup)
    ensures Covered(Run(setup, events).sent)
    decreases |events|
  {
    hide Inv, Next, Covered;
    if events == [] {
      NothingSent(setup);
    } else {
      var before := events[..|events| - 1];
      RunCovers(setup, before);
      RunInv(setup, before);
      NextCovers(setup, Run(setup, before), events[|events| - 1]);
    }
  }

  /** The admission is told first and only once. */
  predicate ConnectedFirst(sent: seq<Record>) {
    forall i :: 0 <= i < |sent| ==> (sent[i].kind.Connected? <==> i == 0)
  }

  lemma NextConnectedFirst(setup: Setup, task: Task, event: Event)
    requires Inv(setup, task) && ConnectedFirst(task.sent)
    requires task.sent == [] ==> task.pc.Done? || (task.pc.Sending? && task.pc.record.kind.Connected?)
    ensures var next := Next(setup, task, event);
      && ConnectedFirst(next.sent)
      && (next.sent == [] ==> next.pc.Done? || (next.pc.Sending? && next.pc.record.kind.Connected?))
  {
    hide Tells, Flags, Counted, FeedStep, TypedStep, CopyDone, EndOfStream, ObserveRead;
    StepSends(setup, task, event);
  }

  lemma {:induction false} RunConnectedFirst(setup: Setup, events: seq<Event>)
    requires Bound(setup)
    ensures var task := Run(setup, events);
      && ConnectedFirst(task.sent)
      && (task.sent == [] ==> task.pc.Done? || (task.pc.Sending? && task.pc.record.kind.Connected?))
    decreases |events|
  {
    if events != [] {
      hide Inv, Next, ConnectedFirst;
      var before := events[..|events| - 1];
      RunConnectedFirst(setup, before);
      RunInv(setup, before);
      NextConnectedFirst(setup, Run(setup, before), events[|events| - 1]);
    }
  }

  lemma NothingSent(setup: Setup)
    ensures Covered(Start(setup).sent)
  {
  }

  /** An end that came from outside the stream's content names what the whole content before it left behind. */
  predicate OutsideEnd(setup: Setup, observed: seq<byte>, sent: seq<Record>) {
    var told := ProtocolOf(sent);
    told != [] && External(told[|told| - 1]) ==> EndsOutside(setup, observed, told[..|told| - 1], told[|told| - 1])
  }

  /**
   * Over every schedule: the raw records are a prefix of the bytes read, and the protocol records are a
   * prefix of the one reading of those bytes, whatever arrives later. Each protocol record comes after the
   * raw bytes it interprets; an end from outside comes after all the content and at its length.
   */
  lemma {:induction false} DeliveredIsPrefix(setup: Setup, events: seq<Event>, more: seq<byte>)
    requires Bound(setup)
    ensures var task := Run(setup, events);
      && RawBytes(task.sent) <= task.observed
      && Content(task.sent) <= ReadAll(setup, task.observed + more).records
      && Covered(task.sent)
      && OutsideEnd(setup, task.observed, task.sent)
  {
    RunCovers(setup, events);
    RunEndsOutside(setup, events);
    hide ReadAll, Next, Covered, OutsideEnd;
    var task := Run(setup, events);
    RunInv(setup, events);
    if EndingOutside(task) || (task.pc.Done? && task.terminalQueued) {
      ExternalStand(setup, task.observed, more);
    } else if !task.pc.Done? {
      assert Agrees(setup, task, more);
    }
  }

  lemma {:induction false} RunEndsOutside(setup: Setup, events: seq<Event>)
    requires Bound(setup)
    ensures OutsideEnd(setup, Run(setup, events).observed, Run(setup, events).sent)
  {
    hide ReadAll, Next, EndsOutside, Counted, Run;
    var task := Run(setup, events);
    RunInv(setup, events);
    LastTold(task.sent);
    var told := ProtocolOf(task.sent);
    if told != [] && External(told[|told| - 1]) {
      var end := told[|told| - 1];
      assert end in told && end in task.sent;
      var i :| 0 <= i < |task.sent| && task.sent[i] == end;
      assert task.terminalQueued && task.pc.Done?;
      assert Told(setup, task);
    }
  }

  /** The peer's whole stream is `stream`: a task reads a prefix of it and sees its end only after all of it. */
  predicate PeerSends(task: Task, stream: seq<byte>) {
    && task.observed <= stream
    && forall record <- task.sent ::
         record.kind.Ended? && (record.kind.reason.CleanEof? || record.kind.reason.Truncated?) ==>
           task.observed == stream
  }

  predicate EndedByPeer(task: Task) {
    && task.terminalQueued
    && forall record <- task.sent ::
         !(record.kind.Ended? && (record.kind.reason.Transport? || record.kind.reason.OffsetExhausted?))
  }

  /** A task whose end was accepted has told exactly what the peer's whole stream means. */
  lemma {:induction false} CompleteDelivery(setup: Setup, events: seq<Event>, stream: seq<byte>)
    requires Bound(setup)
    requires PeerSends(Run(setup, events), stream) && EndedByPeer(Run(setup, events))
    ensures ProtocolOf(Run(setup, events).sent) == Whole(setup, stream)
  {
    hide ReadAll, Next, Shape;
    var task := Run(setup, events);
    RunInv(setup, events);
    var told := ProtocolOf(task.sent);
    LastTold(task.sent);
    if told != [] && External(told[|told| - 1]) {
      assert told == told[..|told| - 1] + [told[|told| - 1]];
    } else {
      var more := stream[|task.observed|..];
      assert task.observed + more == stream;
      assert ReadAll(setup, task.observed + more) == Reading(told, None);
    }
  }

  lemma {:induction false} LastTold(sent: seq<Record>)
    ensures forall record <- ProtocolOf(sent) :: record in sent
    decreases |sent|
  {
    if sent != [] {
      LastTold(sent[..|sent| - 1]);
    }
  }

  /** Scheduling cannot be observed: two tasks that end for the same peer stream tell the same records. */
  lemma {:induction false} ScheduleIndependence(setup: Setup, left: seq<Event>, right: seq<Event>, stream: seq<byte>)
    requires Bound(setup)
    requires PeerSends(Run(setup, left), stream) && EndedByPeer(Run(setup, left))
    requires PeerSends(Run(setup, right), stream) && EndedByPeer(Run(setup, right))
    ensures ProtocolOf(Run(setup, left).sent) == ProtocolOf(Run(setup, right).sent)
  {
    CompleteDelivery(setup, left, stream);
    CompleteDelivery(setup, right, stream);
  }
}
