/** A connection that is served always comes to its end: no reachable task is stuck, and every stream can be told. */
module Completion {
  import opened Wire
  import opened Records
  import opened Meaning
  import opened Framing
  import opened Connection
  import opened Delivery
  import Envelope
  import Identities
  import Session

  /** What a task finds whose waits are all granted, whose peer sends `chunks`, and whose socket then reports `last`. */
  function Offered(task: Task, chunks: seq<seq<byte>>, last: Event): Event {
    if !task.pc.AwaitingRead? then Granted else if chunks == [] then last else ReadChunk(chunks[0])
  }

  function LeftOver(task: Task, chunks: seq<seq<byte>>): seq<seq<byte>> {
    if task.pc.AwaitingRead? && chunks != [] then chunks[1..] else chunks
  }

  /** How far a suspension point is from the next read. */
  function Rank(pc: Pc): nat {
    match pc
    case Done => 0
    case Sending(_, ToStop) => 1
    case AwaitingRead => 2
    case BeforeFeed => 3
    case Sending(_, _) => 4
    case Copying(_, _) => 5
    case BeforeTyped(_) => 6
  }

  /** The records that a suspension point can still lead to before the next read, the end included. */
  function InWork(pc: Pc): nat {
    match pc
    case Done => 0
    case Sending(_, ToStop) => 1
    case AwaitingRead => 1
    case BeforeFeed => 1
    case _ => 2
  }

  /** An upper bound of the records that a task will have sent at its end. */
  function Need(task: Task, chunks: seq<seq<byte>>): nat {
    |task.sent| + |Flatten(chunks)| + |chunks| + |task.input| + InWork(task.pc)
  }

  predicate Chunked(chunks: seq<seq<byte>>) {
    forall chunk <- chunks :: 0 < |chunk| <= READ_BYTES
  }

  /** An end from outside that the socket reported. */
  predicate EndFor(last: Event, record: Record) {
    External(record) ==>
      if last.ReadEof? then record.kind.reason.CleanEof? || record.kind.reason.Truncated?
      else record.kind.reason.Transport?
  }

  /** A task on its way to the end of `stream`, of which `chunks` are still to come. */
  ghost predicate OnItsWay(setup: Setup, task: Task, chunks: seq<seq<byte>>, last: Event, stream: seq<byte>) {
    && Inv(setup, task)
    && Chunked(chunks) && task.observed + Flatten(chunks) == stream && |stream| <= U64_MAX
    && Need(task, chunks) <= U64_MAX
    && (task.pc.Sending? ==> EndFor(last, task.pc.record) && (External(task.pc.record) ==> chunks == []))
    && (task.pc.Done? ==> task.terminalQueued)
    && forall record <- task.sent :: EndFor(last, record) && (External(record) ==> chunks == [])
  }

  lemma ServedOn(setup: Setup, task: Task, chunks: seq<seq<byte>>, last: Event, stream: seq<byte>)
    requires Bound(setup) && OnItsWay(setup, task, chunks, last, stream) && !task.pc.Done?
    requires last.ReadEof? || last.ReadError?
    ensures var next, left := Next(setup, task, Offered(task, chunks, last)), LeftOver(task, chunks);
      && OnItsWay(setup, next, left, last, stream)
      && |left| <= |chunks|
      && (|left| == |chunks| ==> |next.input| <= |task.input|)
      && (|left| == |chunks| && |next.input| == |task.input| ==> Rank(next.pc) < Rank(task.pc))
  {
    hide Tells, Next;
    NextInv(setup, task, Offered(task, chunks, last));
    match task.pc
    case Sending(_, _) => SentOn(setup, task, chunks, last, stream);
    case AwaitingRead => ReadOn(setup, task, chunks, last, stream);
    case Copying(_, _) => CopiedOn(setup, task);
    case BeforeFeed => FedOn(setup, task);
    case BeforeTyped(raw) => TypedOn(setup, task);
  }

  lemma SentOn(setup: Setup, task: Task, chunks: seq<seq<byte>>, last: Event, stream: seq<byte>)
    requires OnItsWay(setup, task, chunks, last, stream) && task.pc.Sending?
    ensures var next := Next(setup, task, Granted);
      && next.sent == task.sent + [task.pc.record] && next.observed == task.observed && next.input == task.input
      && InWork(next.pc) + 1 <= InWork(task.pc) && Rank(next.pc) < Rank(task.pc) && !next.pc.Sending?
      && (next.pc.Done? ==> next.terminalQueued)
  {
    assert |task.sent| == task.recordsQueued;
    hide Inv, EndFor, Flatten, Chunked;
    SendKinds(setup, task);
  }

  /** Only an end stops a task that was granted its send. */
  lemma SendKinds(setup: Setup, task: Task)
    requires Inv(setup, task) && task.pc.Sending?
    ensures task.pc.resume == ToStop ==> task.pc.record.kind.Ended?
    ensures task.pc.resume == ToObserved && task.session.Identity().None? ==> task.pc.record.kind.Ended?
  {
    hide Tells, Counted, Flags, Settled;
  }

  lemma ReadOn(setup: Setup, task: Task, chunks: seq<seq<byte>>, last: Event, stream: seq<byte>)
    requires Bound(setup) && OnItsWay(setup, task, chunks, last, stream) && task.pc.AwaitingRead?
    requires last.ReadEof? || last.ReadError?
    ensures var next, left := Next(setup, task, Offered(task, chunks, last)), LeftOver(task, chunks);
      && next.sent == task.sent && next.observed + Flatten(left) == stream
      && |next.input| + |Flatten(left)| + |left| + InWork(next.pc)
           <= |task.input| + |Flatten(chunks)| + |chunks| + InWork(task.pc)
      && (next.pc.Sending? ==> EndFor(last, next.pc.record) && (External(next.pc.record) ==> left == []))
      && !next.pc.Done?
      && (left == chunks ==> next.input == task.input && Rank(next.pc) < Rank(task.pc))
  {
    hide Inv, EndFor;
    if chunks != [] {
      ChunkOn(setup, task, chunks, stream);
    } else {
      LastOn(setup, task, last);
    }
  }

  lemma ChunkOn(setup: Setup, task: Task, chunks: seq<seq<byte>>, stream: seq<byte>)
    requires Inv(setup, task) && task.pc.AwaitingRead? && chunks != [] && Chunked(chunks)
    requires task.observed + Flatten(chunks) == stream && |stream| <= U64_MAX
    ensures var next := Next(setup, task, ReadChunk(chunks[0]));
      && next.sent == task.sent && next.pc.Copying? && next.input == chunks[0]
      && next.observed + Flatten(chunks[1..]) == stream && |Flatten(chunks)| == |chunks[0]| + |Flatten(chunks[1..])|
  {
    CountedRead(setup, task);
    hide Inv;
    var chunk := chunks[0];
    assert chunk in chunks;
    assert task.observed + (chunk + Flatten(chunks[1..])) == (task.observed + chunk) + Flatten(chunks[1..]);
  }

  lemma CountedRead(setup: Setup, task: Task)
    requires Inv(setup, task)
    ensures |task.observed| == task.read && |task.sent| == task.recordsQueued
  {
  }

  lemma LastOn(setup: Setup, task: Task, last: Event)
    requires Inv(setup, task) && task.pc.AwaitingRead? && (last.ReadEof? || last.ReadError?)
    ensures var next := Next(setup, task, last);
      && next.sent == task.sent && next.observed == task.observed && next.input == task.input
      && next.pc.Sending? && next.pc.resume == ToStop && EndFor(last, next.pc.record)
  {
    hide Tells, Flags, Settled, Counted;
  }

  lemma CopiedOn(setup: Setup, task: Task)
    requires Bound(setup) && Inv(setup, task) && task.pc.Copying?
    ensures var next := Next(setup, task, Granted);
      && next.sent == task.sent && next.observed == task.observed && next.input == task.input
      && next.pc.Sending? && !External(next.pc.record)
      && InWork(next.pc) <= InWork(task.pc) && Rank(next.pc) < Rank(task.pc)
  {
    hide Tells, Flags, Settled, Counted;
  }

  lemma FedOn(setup: Setup, task: Task)
    requires Inv(setup, task) && task.pc.BeforeFeed?
    ensures var next := Next(setup, task, Granted);
      && next.sent == task.sent && next.observed == task.observed
      && |next.input| + InWork(next.pc) <= |task.input| + InWork(task.pc) && !next.pc.Done?
      && (next.pc.Sending? ==> !External(next.pc.record))
      && (|next.input| == |task.input| ==> Rank(next.pc) < Rank(task.pc)) && |next.input| <= |task.input|
  {
    hide Tells, Flags, ParseFront;
  }

  lemma TypedOn(setup: Setup, task: Task)
    requires Inv(setup, task) && task.pc.BeforeTyped?
    ensures var next := Next(setup, task, Granted);
      && next.sent == task.sent && next.observed == task.observed && next.input == task.input
      && InWork(next.pc) <= InWork(task.pc) && Rank(next.pc) < Rank(task.pc) && !next.pc.Done?
      && (next.pc.Sending? ==> !External(next.pc.record))
  {
    hide Tells, Flags, Settled, Envelope.Typed, Session.Receive, Counted;
    var typed := Envelope.Typed(task.pc.raw);
    if typed.Ok? {
      ReceiveEffects(setup.profile, task.session, typed.value);
    }
  }

  /** Serving a task on its way brings it to its end. */
  lemma {:induction false} ServeToEnd(setup: Setup, events: seq<Event>, chunks: seq<seq<byte>>, last: Event,
                                      stream: seq<byte>)
    returns (more: seq<Event>, left: seq<seq<byte>>)
    requires Bound(setup) && OnItsWay(setup, Run(setup, events), chunks, last, stream)
    requires last.ReadEof? || last.ReadError?
    ensures Run(setup, events + more).pc.Done? && OnItsWay(setup, Run(setup, events + more), left, last, stream)
    ensures ConsumerGone !in more
    decreases |chunks|, |Run(setup, events).input|, Rank(Run(setup, events).pc)
  {
    hide OnItsWay, Next;
    var task := Run(setup, events);
    if task.pc.Done? {
      assert events + [] == events;
      return [], chunks;
    }
    var event := Offered(task, chunks, last);
    ServedOn(setup, task, chunks, last, stream);
    RunMore(setup, events, event);
    var rest;
    rest, left := ServeToEnd(setup, events + [event], LeftOver(task, chunks), last, stream);
    more := [event] + rest;
    assert events + more == events + [event] + rest;
  }

  /** A running task that has not met the end of its socket is on its way to any end. */
  lemma SetsOut(setup: Setup, events: seq<Event>, chunks: seq<seq<byte>>, last: Event)
    requires Bound(setup) && Chunked(chunks)
    requires var task := Run(setup, events);
      && !task.pc.Done? && !EndingOutside(task)
      && |task.observed| + |Flatten(chunks)| <= U64_MAX && Need(task, chunks) <= U64_MAX
    ensures OnItsWay(setup, Run(setup, events), chunks, last, Run(setup, events).observed + Flatten(chunks))
  {
    hide Run, Next, Flatten;
    RunInv(setup, events);
    NoEndYet(setup, Run(setup, events));
    hide Inv;
  }

  lemma NoEndYet(setup: Setup, task: Task)
    requires Inv(setup, task) && !task.pc.Done?
    ensures forall record <- task.sent :: !record.kind.Ended?
  {
    hide Tells, Shape, Counted;
  }

  /** The end of a task that was served to the end of its peer's stream. */
  lemma EofTold(setup: Setup, task: Task, left: seq<seq<byte>>, stream: seq<byte>)
    requires OnItsWay(setup, task, left, ReadEof, stream) && task.pc.Done?
    ensures PeerSends(task, stream) && EndedByPeer(task)
  {
    hide Inv;
    assert left == [] ==> task.observed + [] == task.observed;
  }

  /**
   * No connection is ever stuck: from every reachable task that is running, and for everything that its peer may
   * still send, however it is cut, there is a schedule that tells exactly what the whole stream means.
   */
  lemma {:induction false} NeverStuck(setup: Setup, events: seq<Event>, chunks: seq<seq<byte>>)
    requires Bound(setup) && Chunked(chunks)
    requires var task := Run(setup, events);
      && !task.pc.Done? && !EndingOutside(task)
      && |task.observed| + |Flatten(chunks)| <= U64_MAX && Need(task, chunks) <= U64_MAX
    ensures var stream := Run(setup, events).observed + Flatten(chunks);
      exists more: seq<Event> ::
        var task := Run(setup, events + more);
        && task.pc.Done? && PeerSends(task, stream) && EndedByPeer(task)
        && ProtocolOf(task.sent) == Whole(setup, stream) && ConsumerGone !in more
  {
    hide OnItsWay, Run, Whole, Need, EndedByPeer, PeerSends;
    var stream := Run(setup, events).observed + Flatten(chunks);
    SetsOut(setup, events, chunks, ReadEof);
    var more, left := ServeToEnd(setup, events, chunks, ReadEof, stream);
    EofTold(setup, Run(setup, events + more), left, stream);
    CompleteDelivery(setup, events + more, stream);
  }

  /** A socket that fails after a part of the stream ends the connection there, with all content before it told. */
  lemma {:induction false} FailureTold(setup: Setup, events: seq<Event>, chunks: seq<seq<byte>>)
    requires Bound(setup) && Chunked(chunks)
    requires var task := Run(setup, events);
      && !task.pc.Done? && !EndingOutside(task)
      && |task.observed| + |Flatten(chunks)| <= U64_MAX && Need(task, chunks) <= U64_MAX
    requires ReadAll(setup, Run(setup, events).observed + Flatten(chunks)).stand.Some?
    ensures var stream := Run(setup, events).observed + Flatten(chunks);
      var reading := ReadAll(setup, stream);
      exists more: seq<Event> ::
        ProtocolOf(Run(setup, events + more).sent)
          == reading.records
             + [Record(setup.id, |stream|, Ended(reading.stand.value.session.Identity(), Transport))]
  {
    hide OnItsWay, Run, Read, Need;
    var stream := Run(setup, events).observed + Flatten(chunks);
    SetsOut(setup, events, chunks, ReadError);
    var more, left := ServeToEnd(setup, events, chunks, ReadError, stream);
    FailedTold(setup, events + more, left, stream);
  }

  lemma OwnEnd(setup: Setup, events: seq<Event>, end: Record)
    requires end in Run(setup, events).sent
    ensures end.connection == setup.id
  {
    hide Run, Identities.Announced, Identities.Agrees;
    Identities.EveryRecordNames(setup, events);
    var sent := Run(setup, events).sent;
    var i :| 0 <= i < |sent| && sent[i] == end;
    assert Identities.Names(setup, sent[i], sent[..i]);
  }

  lemma FailedTold(setup: Setup, events: seq<Event>, left: seq<seq<byte>>, stream: seq<byte>)
    requires Bound(setup) && OnItsWay(setup, Run(setup, events), left, ReadError, stream) && Run(setup, events).pc.Done?
    requires ReadAll(setup, stream).stand.Some?
    ensures var reading := ReadAll(setup, stream);
      ProtocolOf(Run(setup, events).sent)
        == reading.records + [Record(setup.id, |stream|, Ended(reading.stand.value.session.Identity(), Transport))]
  {
    hide Run, Read, Shape, Counted;
    var task := Run(setup, events);
    var told := ProtocolOf(task.sent);
    LastTold(task.sent);
    var all := ReadAll(setup, task.observed + Flatten(left));
    assert all.stand.Some?;
    assert told != [] && External(told[|told| - 1]);
    var end := told[|told| - 1];
    assert end in told && end in task.sent;
    assert task.observed + [] == task.observed;
    assert told == told[..|told| - 1] + [end];
    OwnEnd(setup, events, end);
  }
}
