/** The worker's tables and counters: what admission, polls, retirement and merging do to them. */
module Driver {
  import opened Wire
  import opened Records
  import opened Orders
  import opened ReadySet
  import Controls
  import Maps

  const LISTENER: Token := 0
  const CONTROL: Token := 1
  const FIRST_CONNECTION: nat := 2

  datatype Failure = Io | TokenExhausted | CounterExhausted

  /** What one task reports about itself. */
  datatype Progress = Progress(
    read: nat,
    wireQueued: nat,
    recordsQueued: nat,
    pendingRecord: bool,
    terminalQueued: bool,
    counterOverflow: bool)
  {
    /** Handed-off bytes were read, and a record in hand means that no end was handed off. */
    predicate Sane() {
      wireQueued <= read <= U64_MAX && recordsQueued <= U64_MAX && (pendingRecord ==> !terminalQueued)
    }
  }

  const NO_PROGRESS := Progress(0, 0, 0, false, false, false)

  datatype RunSummary = RunSummary(
    accepted: nat,
    refused: nat,
    ended: nat,
    abandoned: nat,
    closedByRequest: nat,
    rawBytesRead: nat,
    rawBytesHandedOff: nat,
    undeliveredRawBytes: nat,
    recordsHandedOff: nat,
    undeliveredRecords: nat,
    countersComplete: bool,
    transientAcceptErrors: nat,
    resourcePauseEntries: nat,
    retryQuotaBackoffs: nat)
  {
    /** The books balance against the number of live connections. */
    predicate Balanced(live: nat) {
      && accepted == ended + abandoned + live
      && rawBytesRead == rawBytesHandedOff + undeliveredRawBytes
      && undeliveredRecords <= abandoned
      && closedByRequest <= ended + abandoned
      && countersComplete
    }

    /** The books balance but for one connection that is being closed, perhaps on request. */
    predicate CanClose(live: nat) {
      && accepted == ended + abandoned + live + 1
      && rawBytesRead == rawBytesHandedOff + undeliveredRawBytes
      && undeliveredRecords <= abandoned
      && closedByRequest <= ended + abandoned + 1
      && countersComplete
    }

    /** Handed-off bytes never exceed read bytes, also after a counter failed. */
    predicate Solvent() {
      rawBytesHandedOff <= rawBytesRead
    }
  }

  const NEW_SUMMARY := RunSummary(0, 0, 0, 0, 0, 0, 0, 0, 0, 0, true, 0, 0, 0)

  /** The outcome of merging: the summary and whether every counter held; `None` is the panic of its `expect`. */
  function MergeProgress(summary: RunSummary, progress: Progress): Option<(RunSummary, bool)> {
    var ended := summary.ended + if progress.terminalQueued then 1 else 0;
    var abandoned := summary.abandoned + if progress.terminalQueued then 0 else 1;
    var read := summary.rawBytesRead + progress.read;
    var handedOff := summary.rawBytesHandedOff + progress.wireQueued;
    var records := summary.recordsHandedOff + progress.recordsQueued;
    var undelivered := summary.undeliveredRecords + if progress.pendingRecord then 1 else 0;
    if ended > U64_MAX || abandoned > U64_MAX || read > U64_MAX || handedOff > U64_MAX then Some((summary, false))
    else if handedOff > read then None
    else if records > U64_MAX || undelivered > U64_MAX then Some((summary, false))
    else
      Some((summary.(ended := ended, abandoned := abandoned, rawBytesRead := read, rawBytesHandedOff := handedOff,
                     undeliveredRawBytes := read - handedOff, recordsHandedOff := records,
                     undeliveredRecords := undelivered,
                     countersComplete := summary.countersComplete && !progress.counterOverflow),
            !progress.counterOverflow))
  }

  /** Merging a sane task never panics; if no counter fails, one connection moves from live to closed. */
  lemma MergeKeepsBooks(summary: RunSummary, progress: Progress, live: nat)
    requires summary.Solvent() && progress.Sane()
    ensures MergeProgress(summary, progress).Some?
    ensures var (after, ok) := MergeProgress(summary, progress).value;
      && after.Solvent()
      && (ok && summary.CanClose(live) ==>
            && after.Balanced(live)
            && after.ended + after.abandoned == summary.ended + summary.abandoned + 1
            && after.rawBytesRead == summary.rawBytesRead + progress.read
            && after.undeliveredRawBytes == summary.undeliveredRawBytes + (progress.read - progress.wireQueued))
      && (progress.counterOverflow ==> !ok)
  {
  }

  /** The tables that name connections: scheduler states, control entries and live tasks. */
  datatype Tables = Tables(
    instance: nat,
    maxConnections: nat,
    ready: Ready,
    registry: Controls.Registry,
    live: map<Token, Progress>,
    next: nat)
  {
    function Id(token: Token): ConnectionId {
      ConnectionId(instance, token)
    }

    predicate SameNames() {
      Names(instance, live, ready.states.Keys, registry.entries.Keys, registry.Known(), next)
    }

    /** All three tables name the same tokens, each of which was never used before. */
    ghost predicate Agree() {
      && ready.Consistent() && ready.capacity == maxConnections
      && Controls.Inv(registry) && registry.instance == instance && registry.settling == map[]
      && SameNames()
    }
  }

  /** `live` tasks, scheduler states and control entries name the same fresh tokens. */
  predicate Names(instance: nat, live: map<Token, Progress>, states: set<Token>, entries: set<ConnectionId>,
                  known: set<ConnectionId>, next: nat)
  {
    && states == live.Keys
    && (forall token <- live :: ConnectionId(instance, token) in entries)
    && (forall id <- entries :: id.sequence in live && id.instance == instance)
    && (forall token <- live :: FIRST_CONNECTION <= token < next && live[token].Sane())
    && (forall id <- known :: id.sequence < next)
    && FIRST_CONNECTION <= next <= U64_MAX
  }

  lemma NamesAdded(instance: nat, live: map<Token, Progress>, states: set<Token>, entries: set<ConnectionId>,
                   known: set<ConnectionId>, next: nat)
    requires Names(instance, live, states, entries, known, next) && next < U64_MAX
    ensures var id := ConnectionId(instance, next);
      Names(instance, live[next := NO_PROGRESS], states + {next}, entries + {id}, known + {id}, next + 1)
  {
  }

  lemma NamesRemoved(instance: nat, live: map<Token, Progress>, states: set<Token>, entries: set<ConnectionId>,
                     known: set<ConnectionId>, next: nat, token: Token)
    requires Names(instance, live, states, entries, known, next)
    ensures Names(instance, live - {token}, states - {token}, entries - {ConnectionId(instance, token)}, known, next)
  {
    assert (live - {token}).Keys == live.Keys - {token};
  }

  function Admitted(tables: Tables): Tables {
    var token := tables.next;
    tables.(ready := Insert(tables.ready, token),
            registry := Controls.Register(tables.registry, tables.Id(token)),
            live := tables.live[token := NO_PROGRESS],
            next := tables.next + 1)
  }

  function Retired(tables: Tables, token: Token, result: Controls.CloseResult): Tables {
    var id := tables.Id(token);
    tables.(ready := Retire(tables.ready, token).0,
            registry := Controls.Settle(Controls.Remove(tables.registry, id, result), id),
            live := tables.live - {token})
  }

  lemma AdmittedAgree(tables: Tables)
    requires tables.Agree() && |tables.live| < tables.maxConnections && tables.next < U64_MAX
    requires !tables.registry.stopping
    ensures tables.next !in tables.ready.states && |tables.ready.states| < tables.ready.capacity
    ensures tables.Id(tables.next) !in tables.registry.Known()
    ensures Admitted(tables).Agree() && |Admitted(tables).live| == |tables.live| + 1
    ensures !Admitted(tables).registry.stopping && Controls.Grows(tables.registry, Admitted(tables).registry)
  {
    hide Controls.Inv, Controls.Grows, Ready.Consistent;
    FreshName(tables);
    AdmittedNames(tables);
    Maps.OneMore(tables.live, tables.next, NO_PROGRESS);
    InsertConsistent(tables.ready, tables.next);
    Controls.AdmitInv(tables.registry, tables.Id(tables.next));
  }

  lemma FreshName(tables: Tables)
    requires tables.SameNames()
    ensures tables.next !in tables.live && tables.next !in tables.ready.states
    ensures |tables.ready.states| == |tables.live|
    ensures tables.Id(tables.next) !in tables.registry.Known()
  {
    assert |tables.live.Keys| == |tables.live| && |tables.ready.states.Keys| == |tables.ready.states|;
  }

  lemma AdmittedNames(tables: Tables)
    requires tables.SameNames() && tables.next < U64_MAX
    ensures Admitted(tables).SameNames()
  {
    var token, id := tables.next, tables.Id(tables.next);
    InsertedKeys(tables.ready, token);
    AdmittedIds(tables.registry, id);
    hide Insert, Controls.Register, Names;
    NamesAdded(tables.instance, tables.live, tables.ready.states.Keys, tables.registry.entries.Keys,
               tables.registry.Known(), token);
  }

  lemma InsertedKeys(ready: Ready, token: Token)
    ensures Insert(ready, token).states.Keys == ready.states.Keys + {token}
    ensures Insert(ready, token).capacity == ready.capacity
  {
  }

  lemma AdmittedIds(registry: Controls.Registry, id: ConnectionId)
    ensures Controls.Register(registry, id).entries.Keys == registry.entries.Keys + {id}
    ensures Controls.Register(registry, id).Known() == registry.Known() + {id}
  {
  }

  lemma RetiredAgree(tables: Tables, token: Token, result: Controls.CloseResult)
    requires tables.Agree() && token in tables.live
    requires result.RetiredByRequest? ==> Controls.Requested(tables.registry, tables.Id(token))
    ensures Retired(tables, token, result).Agree() && |Retired(tables, token, result).live| == |tables.live| - 1
    ensures Retired(tables, token, result).registry.TicketResult(tables.Id(token)) == Some(result)
    ensures Retired(tables, token, result).registry.stopping == tables.registry.stopping
    ensures Controls.Grows(tables.registry, Retired(tables, token, result).registry)
  {
    hide Controls.Inv, Ready.Consistent, ReadySet.Retire, Controls.Grows, Names;
    RetireConsistent(tables.ready, token);
    RetireKeepsCapacity(tables.ready, token);
    RetiredNames(tables, token, result);
    RetiredTicket(tables, token, result);
    Maps.OneLess(tables.live, token);
  }

  lemma RetiredTicket(tables: Tables, token: Token, result: Controls.CloseResult)
    requires Controls.Inv(tables.registry) && tables.SameNames() && token in tables.live
    requires tables.registry.settling == map[]
    requires result.RetiredByRequest? ==> Controls.Requested(tables.registry, tables.Id(token))
    ensures var registry, after := tables.registry, Retired(tables, token, result).registry;
      && Controls.Inv(after) && Controls.Grows(registry, after)
      && after.TicketResult(tables.Id(token)) == Some(result)
      && after.stopping == registry.stopping && after.instance == registry.instance && after.settling == map[]
  {
    hide ReadySet.Retire;
    var id := tables.Id(token);
    assert id in tables.registry.entries;
    hide Controls.Inv, Names;
    var removed := Controls.Remove(tables.registry, id, result);
    Controls.RemoveInv(tables.registry, id, result);
    Controls.SettleInv(removed, id);
    GrowsTwice(tables.registry, removed, Controls.Settle(removed, id));
  }

  lemma GrowsTwice(first: Controls.Registry, second: Controls.Registry, third: Controls.Registry)
    requires Controls.Grows(first, second) && Controls.Grows(second, third)
    ensures Controls.Grows(first, third)
  {
  }

  lemma RetiredNames(tables: Tables, token: Token, result: Controls.CloseResult)
    requires tables.SameNames() && token in tables.live
    requires Retire(tables.ready, token).0.states.Keys == tables.ready.states.Keys - {token}
    ensures Retired(tables, token, result).SameNames()
  {
    hide ReadySet.Retire, Names;
    var after := Retired(tables, token, result);
    assert after.registry.Known() == tables.registry.Known();
    assert after.registry.entries.Keys == tables.registry.entries.Keys - {tables.Id(token)};
    NamesRemoved(tables.instance, tables.live, tables.ready.states.Keys, tables.registry.entries.Keys,
                 tables.registry.Known(), tables.next, token);
  }

  lemma RetireKeepsCapacity(ready: Ready, token: Token)
    ensures Retire(ready, token).0.capacity == ready.capacity
  {
  }

  /** Blocks of the scheduler and reports of tasks never change which tokens are named. */
  lemma SameNamesAgree(tables: Tables, after: Tables)
    requires tables.Agree()
    requires after.ready.Consistent() && after.ready.states.Keys == tables.ready.states.Keys
    requires after.ready.capacity == tables.ready.capacity
    requires after.live.Keys == tables.live.Keys && forall token <- after.live :: after.live[token].Sane()
    requires after == tables.(ready := after.ready, live := after.live)
    ensures after.Agree() && |after.live| == |tables.live|
  {
    hide Controls.Inv, Ready.Consistent;
    assert |after.live.Keys| == |after.live| && |tables.live.Keys| == |tables.live|;
  }

  /** How one poll of a task ends. */
  datatype Polled = Finished | Slept(reason: WaitReason) | Yielded

  /** One poll: the scheduler blocks of its requests, how it ends, and the progress it leaves. */
  datatype PollRun = PollRun(blocks: seq<Block>, end: Polled, progress: Progress)

  /** A polled task is gone, or waits, or owns another turn. */
  ghost predicate AllSettled(ready: Ready, polled: seq<Token>) {
    forall token <- polled :: token in ready.states ==> !ready.states[token].Running?
  }

  /** No task starts to run but `except`. */
  ghost predicate NoneStarts(before: Ready, after: Ready, except: Token) {
    forall token :: token in after.states && token != except ==>
      token in before.states && (after.states[token] == before.states[token] || after.Runnable(token))
  }

  lemma StaySettled(before: Ready, after: Ready, polled: seq<Token>, token: Token)
    requires AllSettled(before, polled) && NoneStarts(before, after, token)
    requires token in after.states ==> !after.states[token].Running?
    ensures AllSettled(after, polled + [token])
  {
  }

  lemma BoundedLive(tables: Tables)
    requires tables.Agree()
    ensures |tables.live| <= tables.maxConnections
  {
    hide Controls.Inv;
    assert |tables.live.Keys| == |tables.live| && |tables.ready.states.Keys| == |tables.ready.states|;
  }

  lemma GrowsItself(registry: Controls.Registry)
    ensures Controls.Grows(registry, registry)
  {
  }

  /** Retiring one connection leaves the request marks of the others. */
  lemma OthersStayRequested(tables: Tables, token: Token, result: Controls.CloseResult)
    requires tables.Agree() && token in tables.live
    ensures var after := Retired(tables, token, result);
      && after.live == tables.live - {token}
      && forall other <- tables.live :: other != token && Controls.Requested(tables.registry, tables.Id(other)) ==>
           Controls.Requested(after.registry, tables.Id(other))
  {
    hide Tables.Agree, ReadySet.Retire;
  }

  lemma CalledAgree(tables: Tables, id: ConnectionId)
    requires tables.Agree()
    ensures tables.(registry := Controls.Close(tables.registry, id).0).Agree()
    ensures Controls.Grows(tables.registry, Controls.Close(tables.registry, id).0)
  {
    hide Ready.Consistent;
    Controls.CallInv(tables.registry, id);
    hide Controls.Inv, Controls.Grows;
    var after := Controls.Close(tables.registry, id).0;
    assert after.entries.Keys == tables.registry.entries.Keys && after.Known() == tables.registry.Known();
    hide Names;
  }

  lemma StoppedAgree(tables: Tables)
    requires tables.Agree() && tables.live == map[]
    ensures tables.(registry := Controls.StopAll(tables.registry)).Agree()
    ensures Controls.Grows(tables.registry, Controls.StopAll(tables.registry))
    ensures forall id <- Controls.StopAll(tables.registry).asked ::
      Controls.StopAll(tables.registry).TicketResult(id).Some?
  {
    hide Ready.Consistent;
    assert (map id | id in tables.registry.entries :: Controls.ReceiverStopped) == map[];
    assert tables.registry.entries.Keys == {};
    Controls.StopInv(tables.registry);
  }

  /** Taking a task from the run queue yields a live one and changes no name. */
  lemma TakenAgree(tables: Tables)
    requires tables.Agree()
    ensures var (taken, token) := Take(tables.ready);
      && tables.(ready := taken).Agree()
      && (token.None? <==> tables.ready.queue == [])
      && (token.Some? ==> token.value in tables.live && tables.ready.Runnable(token.value))
  {
    hide Controls.Inv, Names;
    TakeConsistent(tables.ready);
    AgreeFacts(tables);
    SameNamesAgree(tables, tables.(ready := Take(tables.ready).0));
  }

  /** The blocks of a poll, with the progress it reports. */
  function DuringPoll(tables: Tables, token: Token, poll: PollRun): Tables {
    tables.(ready := Blocks(tables.ready, token, poll.blocks), live := tables.live[token := poll.progress])
  }

  /** The tables after a whole poll. */
  function AfterPoll(tables: Tables, token: Token, poll: PollRun): Tables {
    var during := DuringPoll(tables, token, poll);
    if token !in during.ready.states then during
    else
      match poll.end
      case Finished => Retired(during, token, Controls.ConnectionEnded)
      case Slept(reason) => during.(ready := Park(during.ready, token, reason))
      case Yielded => during.(ready := Enqueue(during.ready, token).0)
  }

  lemma DuringPollAgree(tables: Tables, token: Token, poll: PollRun)
    requires tables.Agree() && token in tables.live && poll.progress.Sane()
    ensures DuringPoll(tables, token, poll).Agree() && |DuringPoll(tables, token, poll).live| == |tables.live|
    ensures DuringPoll(tables, token, poll).live.Keys == tables.live.Keys
    ensures token in DuringPoll(tables, token, poll).ready.states
    ensures NoneStarts(tables.ready, DuringPoll(tables, token, poll).ready, token)
  {
    hide Controls.Inv, Names, Progress.Sane, Blocks;
    AgreeFacts(tables);
    BlocksKeep(tables.ready, token, poll.blocks);
    var during := DuringPoll(tables, token, poll);
    assert during.live.Keys == tables.live.Keys;
    SameNamesAgree(tables, during);
  }

  lemma AfterPollAgree(tables: Tables, token: Token, poll: PollRun)
    requires tables.Agree() && token in tables.live && poll.progress.Sane()
    ensures DuringPoll(tables, token, poll).Agree() && |DuringPoll(tables, token, poll).live| == |tables.live|
    ensures DuringPoll(tables, token, poll).live.Keys == tables.live.Keys
    ensures token in DuringPoll(tables, token, poll).ready.states
    ensures AfterPoll(tables, token, poll).Agree()
    ensures NoneStarts(tables.ready, AfterPoll(tables, token, poll).ready, token)
    ensures var after := AfterPoll(tables, token, poll).ready; token in after.states ==> !after.states[token].Running?
  {
    hide Tables.Agree, Progress.Sane, Park, Enqueue, Retire, NoneStarts, DuringPoll, Controls.Grows;
    DuringPollAgree(tables, token, poll);
    var during := DuringPoll(tables, token, poll);
    EndStarts(during, token, poll.end);
    match poll.end
    case Finished =>
      RetiredAgree(during, token, Controls.ConnectionEnded);
      StartsTwice(tables.ready, during.ready, Retire(during.ready, token).0, token);
    case Slept(reason) =>
      PendingAgree(during, token, reason);
      StartsTwice(tables.ready, during.ready, Park(during.ready, token, reason), token);
    case Yielded =>
      PendingAgree(during, token, Kernel);
      StartsTwice(tables.ready, during.ready, Enqueue(during.ready, token).0, token);
  }

  lemma StartsTwice(first: Ready, second: Ready, third: Ready, token: Token)
    requires NoneStarts(first, second, token) && NoneStarts(second, third, token)
    ensures NoneStarts(first, third, token)
  {
  }

  /** Exactly the tasks that wait for a socket that has an event get a turn. */
  ghost predicate Dispatched(before: Ready, after: Ready, events: seq<Token>) {
    && after.states.Keys == before.states.Keys
    && after.slotWaiters == before.slotWaiters && after.byteWaiters == before.byteWaiters
    && forall token :: token in before.states ==>
         after.states[token] ==
           if before.states[token] == Waiting(Kernel) && token in events && token != LISTENER && token != CONTROL
           then Queued
           else before.states[token]
  }

  lemma NothingDispatched(ready: Ready)
    ensures Dispatched(ready, ready, [])
  {
  }

  lemma OneDispatched(before: Ready, ready: Ready, events: seq<Token>, token: Token)
    requires Dispatched(before, ready, events)
    ensures Dispatched(before, if token == LISTENER || token == CONTROL then ready else IoReady(ready, token),
                       events + [token])
  {
  }

  lemma TakeStartsOne(ready: Ready)
    requires Take(ready).1.Some?
    ensures NoneStarts(ready, Take(ready).0, Take(ready).1.value)
  {
  }

  lemma NoneSettled(ready: Ready)
    ensures AllSettled(ready, [])
  {
  }

  /** No end of a poll starts another task, and none leaves its own task running. */
  lemma EndStarts(tables: Tables, token: Token, end: Polled)
    requires tables.Agree() && token in tables.ready.states
    ensures end.Finished? ==>
      NoneStarts(tables.ready, Retire(tables.ready, token).0, token) && token !in Retire(tables.ready, token).0.states
    ensures end.Slept? ==> NoneStarts(tables.ready, Park(tables.ready, token, end.reason), token)
    ensures end.Yielded? ==> NoneStarts(tables.ready, Enqueue(tables.ready, token).0, token)
  {
    hide Retire, Park, Enqueue, Controls.Inv, Names;
    match end
    case Finished => RetireStarts(tables.ready, token);
    case Slept(reason) => ParkStarts(tables.ready, token, reason);
    case Yielded => EnqueueStarts(tables.ready, token);
  }

  lemma RetireStarts(ready: Ready, token: Token)
    requires ready.Consistent()
    ensures NoneStarts(ready, Retire(ready, token).0, token) && token !in Retire(ready, token).0.states
  {
    RetireConsistent(ready, token);
    hide Retire, Ready.Sound;
  }

  lemma ParkStarts(ready: Ready, token: Token, reason: WaitReason)
    requires ready.Consistent() && token in ready.states
    ensures NoneStarts(ready, Park(ready, token, reason), token)
  {
    ParkConsistent(ready, token, reason);
    hide Park, Ready.Sound;
  }

  lemma EnqueueStarts(ready: Ready, token: Token)
    requires ready.Consistent()
    ensures NoneStarts(ready, Enqueue(ready, token).0, token)
  {
    EnqueueSound(ready, token);
    hide Enqueue, Ready.Sound;
  }

  /** A pending poll leaves its task parked or queued again, never running. */
  lemma PendingAgree(tables: Tables, token: Token, reason: WaitReason)
    requires tables.Agree() && token in tables.live
    ensures token in tables.ready.states
    ensures tables.(ready := Park(tables.ready, token, reason)).Agree()
    ensures token in Park(tables.ready, token, reason).states
      && !Park(tables.ready, token, reason).states[token].Running?
    ensures tables.(ready := Enqueue(tables.ready, token).0).Agree()
    ensures token in Enqueue(tables.ready, token).0.states && !Enqueue(tables.ready, token).0.states[token].Running?
  {
    AgreeFacts(tables);
    assert token in tables.ready.states;
    ParkConsistent(tables.ready, token, reason);
    EnqueueSound(tables.ready, token);
    hide Controls.Inv, Names, Park, Enqueue;
    SameNamesAgree(tables, tables.(ready := Park(tables.ready, token, reason)));
    SameNamesAgree(tables, tables.(ready := Enqueue(tables.ready, token).0));
  }

  /** A resumed head and a network event wake tasks and name none. */
  lemma WokenConsistent(ready: Ready, reason: WaitReason, token: Token)
    requires ready.Consistent() && !reason.Kernel?
    ensures var resumed := ResumeHead(ready, reason).0;
      resumed.Consistent() && resumed.states.Keys == ready.states.Keys && resumed.capacity == ready.capacity
    ensures var woken := IoReady(ready, token);
      woken.Consistent() && woken.states.Keys == ready.states.Keys && woken.capacity == ready.capacity
  {
    ResumeSound(ready, reason);
    EnqueueSound(ready, token);
    hide ResumeHead, Enqueue, Ready.Sound;
  }

  /** A resume leaves both orders as they are, gives the head its turn and takes none away. */
  lemma ResumeGivesTurn(tables: Tables, reason: WaitReason)
    requires tables.Agree() && !reason.Kernel?
    ensures var ready, resumed := tables.ready, ResumeHead(tables.ready, reason).0;
      && resumed.slotWaiters == ready.slotWaiters && resumed.byteWaiters == ready.byteWaiters
      && (ready.Waiters(reason) != [] ==> resumed.Runnable(ready.Waiters(reason)[0]))
      && (forall token :: ready.Runnable(token) ==> resumed.Runnable(token))
  {
    hide Controls.Inv, Names, ResumeHead;
    ResumeSound(tables.ready, reason);
    var waiters := tables.ready.Waiters(reason);
    assert waiters != [] ==> waiters[0] in waiters;
  }

  lemma WokenAgree(tables: Tables, reason: WaitReason, token: Token)
    requires tables.Agree() && !reason.Kernel?
    ensures tables.(ready := ResumeHead(tables.ready, reason).0).Agree()
    ensures tables.(ready := IoReady(tables.ready, token)).Agree()
  {
    hide Controls.Inv, Names, ResumeHead, IoReady, Ready.Consistent;
    AgreeFacts(tables);
    WokenConsistent(tables.ready, reason, token);
    SameNamesAgree(tables, tables.(ready := ResumeHead(tables.ready, reason).0));
    SameNamesAgree(tables, tables.(ready := IoReady(tables.ready, token)));
  }

  lemma AgreeFacts(tables: Tables)
    requires tables.Agree()
    ensures tables.next <= U64_MAX && tables.next !in tables.live
    ensures forall token <- tables.live :: tables.live[token].Sane()
    ensures tables.ready.states.Keys == tables.live.Keys
  {
    hide Controls.Inv, Ready.Consistent;
    FreshName(tables);
  }

  lemma SkippedAgree(tables: Tables)
    requires tables.Agree() && tables.next < U64_MAX
    ensures tables.(next := tables.next + 1).Agree()
  {
    hide Controls.Inv, Ready.Consistent;
  }
}
