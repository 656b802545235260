/** What every turn and every run of the worker keep: its tables, its books, and the pace of its listener. */
module TurnLaws {
  import opened Wire
  import opened Records
  import opened Orders
  import opened ReadySet
  import opened Driver
  import opened Turns
  import Controls
  import Maps

  // The books.

  function Gone(closed: seq<Closed>): set<Token> {
    set i | 0 <= i < |closed| :: closed[i].token
  }

  /** Every admitted connection is live or was closed once, and no name is used twice. */
  ghost predicate Accounted(admitted: seq<Token>, closed: seq<Closed>, live: set<Token>, next: Token) {
    && Distinct(admitted)
    && (forall token <- admitted :: token < next)
    && (forall i, j :: 0 <= i < j < |closed| ==> closed[i].token != closed[j].token)
    && (forall token :: token in admitted <==> token in live || token in Gone(closed))
    && live !! Gone(closed)
    && |admitted| == |closed| + |live|
  }

  ghost predicate Passed(work: Work) {
    Accounted(work.admitted, work.closed, work.tables.live.Keys, work.tables.next)
  }

  predicate SaneReports(closed: seq<Closed>) {
    forall i :: 0 <= i < |closed| ==> closed[i].progress.Sane()
  }

  /** The tables agree, reports are sane, and the internal check of the counters cannot fail. */
  ghost predicate Good(work: Work) {
    work.tables.Agree() && work.summary.Solvent() && Passed(work) && SaneReports(work.closed)
  }

  /** What the closed connections reported, added up. */
  datatype Sums = Sums(ended: nat, abandoned: nat, read: nat, handedOff: nat, records: nat, pending: nat, asked: nat)

  function One(condition: bool): nat {
    if condition then 1 else 0
  }

  function SumsOf(closed: seq<Closed>): Sums {
    if closed == [] then Sums(0, 0, 0, 0, 0, 0, 0)
    else
      var sums, last := SumsOf(closed[..|closed| - 1]), closed[|closed| - 1];
      Sums(sums.ended + One(last.progress.terminalQueued),
           sums.abandoned + One(!last.progress.terminalQueued),
           sums.read + last.progress.read,
           sums.handedOff + last.progress.wireQueued,
           sums.records + last.progress.recordsQueued,
           sums.pending + One(last.progress.pendingRecord),
           sums.asked + One(last.result.RetiredByRequest?))
  }

  /** The marks that a counter of the listener counts. */
  datatype Kind = Entries | Refusals | Retries | Shortages | QuotaPauses

  predicate Counts(kind: Kind, mark: Mark) {
    match kind
    case Entries => mark.Tried? && mark.fate.Entered?
    case Refusals => mark.Tried? && mark.fate.TurnedAway?
    case Retries => mark.Tried? && mark.outcome.Retry?
    case Shortages => mark.Paused? && !mark.quota
    case QuotaPauses => mark.Paused? && mark.quota
  }

  function Count(kind: Kind, marks: seq<Mark>): nat {
    if marks == [] then 0 else Count(kind, marks[..|marks| - 1]) + One(Counts(kind, marks[|marks| - 1]))
  }

  predicate BooksClosed(summary: RunSummary, closed: seq<Closed>) {
    var sums := SumsOf(closed);
    && summary.ended == sums.ended && summary.abandoned == sums.abandoned
    && summary.rawBytesRead == sums.read && summary.rawBytesHandedOff == sums.handedOff
    && summary.undeliveredRawBytes == sums.read - sums.handedOff
    && summary.recordsHandedOff == sums.records && summary.undeliveredRecords == sums.pending
    && summary.closedByRequest == sums.asked
    && summary.countersComplete
  }

  predicate BooksOpened(summary: RunSummary, admitted: seq<Token>, marks: seq<Mark>) {
    && summary.accepted == |admitted| == Count(Entries, marks)
    && summary.refused == Count(Refusals, marks)
    && summary.transientAcceptErrors == Count(Retries, marks)
    && summary.resourcePauseEntries == Count(Shortages, marks)
    && summary.retryQuotaBackoffs == Count(QuotaPauses, marks)
  }

  /** Every counter is the sum or the count of what it stands for. */
  predicate Booked(work: Work) {
    BooksClosed(work.summary, work.closed) && BooksOpened(work.summary, work.admitted, work.marks)
  }

  lemma ClosedMore(closed: seq<Closed>, last: Closed)
    ensures SumsOf(closed + [last]) == Sums(
      SumsOf(closed).ended + One(last.progress.terminalQueued),
      SumsOf(closed).abandoned + One(!last.progress.terminalQueued),
      SumsOf(closed).read + last.progress.read,
      SumsOf(closed).handedOff + last.progress.wireQueued,
      SumsOf(closed).records + last.progress.recordsQueued,
      SumsOf(closed).pending + One(last.progress.pendingRecord),
      SumsOf(closed).asked + One(last.result.RetiredByRequest?))
    ensures Gone(closed + [last]) == Gone(closed) + {last.token}
  {
    var all := closed + [last];
    assert all[..|closed|] == closed;
    assert forall i :: 0 <= i < |closed| ==> all[i] == closed[i];
    assert all[|closed|] == last;
  }

  lemma CountMore(kind: Kind, marks: seq<Mark>, mark: Mark)
    ensures Count(kind, marks + [mark]) == Count(kind, marks) + One(Counts(kind, mark))
  {
    assert (marks + [mark])[..|marks|] == marks;
  }

  /** The sums are consistent with each other when every report was. */
  lemma {:induction false} SumsBalance(closed: seq<Closed>)
    requires SaneReports(closed)
    ensures var sums := SumsOf(closed);
      && sums.ended + sums.abandoned == |closed|
      && sums.handedOff <= sums.read && sums.pending <= sums.abandoned && sums.asked <= |closed|
    decreases |closed|
  {
    if closed != [] {
      SumsBalance(closed[..|closed| - 1]);
    }
  }

  // Retirement.

  /** Closing never fires the internal check; unless a counter fails, it adds exactly this report. */
  lemma CloseStepSums(summary: RunSummary, closed: seq<Closed>, last: Closed)
    requires summary.Solvent() && last.progress.Sane()
    ensures var (after, ok) := CloseStep(summary, last.progress, last.result);
      && after.Solvent()
      && (ok && BooksClosed(summary, closed) ==> BooksClosed(after, closed + [last]))
      && after.accepted == summary.accepted && after.refused == summary.refused
      && after.transientAcceptErrors == summary.transientAcceptErrors
      && after.resourcePauseEntries == summary.resourcePauseEntries
      && after.retryQuotaBackoffs == summary.retryQuotaBackoffs
  {
    ClosedMore(closed, last);
    hide SumsOf;
  }

  lemma AccountedClose(admitted: seq<Token>, closed: seq<Closed>, live: set<Token>, next: Token, last: Closed)
    requires Accounted(admitted, closed, live, next) && last.token in live
    ensures Accounted(admitted, closed + [last], live - {last.token}, next)
  {
    ClosedMore(closed, last);
    hide SumsOf;
    assert forall i :: 0 <= i < |closed| ==> closed[i].token in Gone(closed);
    hide Gone;
    assert |live| == |live - {last.token}| + 1;
  }

  lemma RetireStepShape(work: Work, token: Token, result: Controls.CloseResult)
    requires token in work.tables.live
    ensures var (next, ok) := RetireStep(work, token, result);
      var (summary, fine) := CloseStep(work.summary, work.tables.live[token], result);
      && ok == fine
      && next == work.(tables := Retired(work.tables, token, result), summary := summary,
                       closed := work.closed + [Closed(token, work.tables.live[token], result)])
      && next.tables.live == work.tables.live - {token}
      && next.tables.live.Keys == work.tables.live.Keys - {token}
      && SameListener(work, next)
  {
    hide CloseStep, Retire, Controls.Settle, Controls.Remove;
  }

  lemma RetireStepGood(work: Work, token: Token, result: Controls.CloseResult)
    requires Good(work) && token in work.tables.live
    requires result.RetiredByRequest? ==> Asked(work.tables, token)
    ensures var (next, ok) := RetireStep(work, token, result);
      && Good(next) && (ok && Booked(work) ==> Booked(next))
      && Controls.Grows(work.tables.registry, next.tables.registry)
      && next.tables.registry.stopping == work.tables.registry.stopping
      && next.tables.registry.TicketResult(work.tables.Id(token)) == Some(result)
      && next.tables.live == work.tables.live - {token}
      && SameListener(work, next)
  {
    hide Accounted, Tables.Agree, CloseStep, BooksClosed, Controls.Grows, Retired, RetireStep,
      Controls.Registry.TicketResult, RunSummary.Solvent, Count, Progress.Sane, SumsOf;
    var last := Closed(token, work.tables.live[token], result);
    AgreeFacts(work.tables);
    RetiredAgree(work.tables, token, result);
    CloseStepSums(work.summary, work.closed, last);
    RetireStepShape(work, token, result);
    AccountedClose(work.admitted, work.closed, work.tables.live.Keys, work.tables.next, last);
  }

  /** The listener, its history and the admissions are untouched. */
  predicate SameListener(before: Work, after: Work) {
    && after.marks == before.marks && after.pausedAt == before.pausedAt && after.clock == before.clock
    && after.listenerReady == before.listenerReady && after.admitted == before.admitted
    && after.turnSteps == before.turnSteps && after.tables.maxConnections == before.tables.maxConnections
    && after.tables.instance == before.tables.instance && after.tables.next == before.tables.next
  }

  /** What every part of a turn keeps; `ok` says that no counter failed in it. */
  ghost predicate Leads(before: Work, after: Work, ok: bool) {
    && Good(after)
    && Controls.Grows(before.tables.registry, after.tables.registry)
    && after.tables.registry.stopping == before.tables.registry.stopping
    && after.tables.maxConnections == before.tables.maxConnections && after.turnSteps == before.turnSteps
    && (ok && Booked(before) ==> Booked(after))
  }

  lemma LeadsItself(work: Work)
    requires Good(work)
    ensures Leads(work, work, true)
  {
    GrowsItself(work.tables.registry);
  }

  lemma LeadsOn(first: Work, second: Work, third: Work, ok: bool)
    requires Leads(first, second, true) && Leads(second, third, ok)
    ensures Leads(first, third, ok)
  {
    hide Good, Booked;
    GrowsTwice(first.tables.registry, second.tables.registry, third.tables.registry);
  }

  /** Only the scheduler's value changes: nothing else can notice. */
  lemma ReadyLeads(work: Work, ready: Ready)
    requires Good(work) && work.tables.(ready := ready).Agree()
    ensures Leads(work, work.(tables := work.tables.(ready := ready)), true)
  {
    hide Tables.Agree, Accounted;
    GrowsItself(work.tables.registry);
  }

  lemma {:induction false} RetireEachLeads(work: Work, tokens: seq<Token>, result: Controls.CloseResult)
    requires Good(work) && Distinct(tokens) && forall token <- tokens :: token in work.tables.live
    requires result.RetiredByRequest? ==> forall token <- tokens :: Asked(work.tables, token)
    ensures var (next, ok) := RetireEach(work, tokens, result);
      && Leads(work, next, ok) && SameListener(work, next)
      && next.tables.live.Keys <= work.tables.live.Keys
      && (forall token <- work.tables.live :: token !in next.tables.live ==>
            token in tokens && next.tables.registry.TicketResult(work.tables.Id(token)) == Some(result))
      && (ok ==> forall token <- tokens :: token !in next.tables.live)
    decreases |tokens|
  {
    hide Good, Booked, Controls.Grows, RetireStep;
    if tokens == [] {
      LeadsItself(work);
    } else {
      var token := tokens[0];
      var (next, ok) := RetireStep(work, token, result);
      RetireStepGood(work, token, result);
      RetireStepLeads(work, next, ok);
      if ok {
        OthersAsked(work, token, result);
        assert forall other <- tokens[1..] :: other in tokens && other != token;
        RetireEachLeads(next, tokens[1..], result);
        var (last, rest) := RetireEach(next, tokens[1..], result);
        LeadsOn(work, next, last, rest);
        TicketStays(next, last, work.tables.Id(token), rest);
        assert forall other <- tokens :: other == token || other in tokens[1..];
      }
    }
  }

  lemma RetireStepLeads(work: Work, next: Work, ok: bool)
    requires Good(next) && (ok && Booked(work) ==> Booked(next))
    requires Controls.Grows(work.tables.registry, next.tables.registry)
    requires next.tables.registry.stopping == work.tables.registry.stopping && SameListener(work, next)
    ensures Leads(work, next, ok)
  {
  }

  lemma OthersAsked(work: Work, token: Token, result: Controls.CloseResult)
    requires Good(work) && token in work.tables.live
    ensures var next := RetireStep(work, token, result).0;
      forall other :: other != token && Asked(work.tables, other) ==> Asked(next.tables, other)
  {
    OthersStayRequested(work.tables, token, result);
    RetireStepShape(work, token, result);
    hide Good, Retired, RetireStep;
    assert RetireStep(work, token, result).0.tables == Retired(work.tables, token, result);
  }

  lemma TicketStays(before: Work, after: Work, id: ConnectionId, ok: bool)
    requires Leads(before, after, ok) && before.tables.registry.TicketResult(id).Some?
    ensures after.tables.registry.TicketResult(id) == before.tables.registry.TicketResult(id)
  {
    hide Good, Booked;
  }

  /** Exactly the live connections whose close was requested are retired. */
  lemma RetireAskedLeads(work: Work)
    requires Good(work)
    ensures var (next, ok) := RetireAsked(work);
      && Leads(work, next, ok) && SameListener(work, next)
      && next.tables.live.Keys <= work.tables.live.Keys
      && (forall token <- work.tables.live :: token !in next.tables.live ==>
            Asked(work.tables, token)
            && next.tables.registry.TicketResult(work.tables.Id(token)) == Some(Controls.RetiredByRequest))
      && (ok ==> forall token <- next.tables.live :: !Asked(work.tables, token))
  {
    hide Good, Booked, Leads, Asked, RetireEach;
    RetireEachLeads(work, AskedTokens(work.tables), Controls.RetiredByRequest);
  }

  lemma {:induction false} RetireAllLeads(work: Work)
    requires Good(work)
    ensures var (next, ok) := RetireAll(work);
      Leads(work, next, ok) && SameListener(work, next) && next.tables.live == map[]
    decreases |work.tables.live|
  {
    hide Good, Booked, Controls.Grows, RetireStep;
    if work.tables.live == map[] {
      LeadsItself(work);
    } else {
      var token := Least(work.tables.live.Keys);
      Maps.OneLess(work.tables.live, token);
      var (next, ok) := RetireStep(work, token, Controls.ReceiverStopped);
      RetireStepGood(work, token, Controls.ReceiverStopped);
      RetireAllLeads(next);
      var (last, rest) := RetireAll(next);
      AllLeads(work, next, last, ok, rest);
    }
  }

  lemma AllLeads(first: Work, second: Work, third: Work, ok: bool, rest: bool)
    requires Good(second) && (ok && Booked(first) ==> Booked(second)) && Leads(second, third, rest)
    requires Controls.Grows(first.tables.registry, second.tables.registry)
    requires second.tables.registry.stopping == first.tables.registry.stopping && SameListener(first, second)
    ensures Leads(first, third, ok && rest)
  {
    GrowsTwice(first.tables.registry, second.tables.registry, third.tables.registry);
    hide Good, Booked, Controls.Grows;
  }

  // Tasks.

  lemma CallLeads(work: Work, id: ConnectionId)
    requires Good(work)
    ensures Leads(work, CallStep(work, id), true) && SameListener(work, CallStep(work, id))
    ensures CallStep(work, id).tables.live == work.tables.live
  {
    CalledAgree(work.tables, id);
    CalledStays(work.tables.registry, id);
    hide Tables.Agree, Accounted, Controls.Grows, Controls.Close;
    SameBooks(work, CallStep(work, id));
  }

  lemma CalledStays(registry: Controls.Registry, id: ConnectionId)
    ensures Controls.Close(registry, id).0.stopping == registry.stopping
  {
  }

  lemma {:induction false} CallsLeads(work: Work, ids: seq<ConnectionId>)
    requires Good(work)
    ensures Leads(work, CallsStep(work, ids), true) && SameListener(work, CallsStep(work, ids))
    ensures CallsStep(work, ids).tables.live == work.tables.live
    decreases |ids|
  {
    if ids == [] {
      LeadsItself(work);
    } else {
      CallLeads(work, ids[0]);
      hide Good, Booked, Controls.Grows, CallStep;
      var next := CallStep(work, ids[0]);
      GoodOf(work, next);
      CallsLeads(next, ids[1..]);
      LeadsOn(work, next, CallsStep(next, ids[1..]), true);
    }
  }

  lemma GoodOf(before: Work, after: Work)
    requires Leads(before, after, true)
    ensures Good(after)
  {
  }

  /** Drained credit gives both heads their turn and leaves both orders. */
  lemma CreditLeads(work: Work, slotCredit: bool, byteCredit: bool)
    requires Good(work)
    ensures var next := CreditStep(work, slotCredit, byteCredit);
      && Leads(work, next, true) && SameListener(work, next) && next.tables.live == work.tables.live
      && next.tables.ready.slotWaiters == work.tables.ready.slotWaiters
      && next.tables.ready.byteWaiters == work.tables.ready.byteWaiters
      && (slotCredit && next.tables.ready.slotWaiters != [] ==>
            next.tables.ready.Runnable(next.tables.ready.slotWaiters[0]))
      && (byteCredit && next.tables.ready.byteWaiters != [] ==>
            next.tables.ready.Runnable(next.tables.ready.byteWaiters[0]))
  {
    hide Tables.Agree, Accounted, ResumeHead, Leads, Booked, Controls.Grows;
    var slots := work.tables.(ready := ResumeStep(work.tables.ready, Slots, slotCredit));
    if slotCredit {
      WokenAgree(work.tables, Slots, 0);
      ResumeGivesTurn(work.tables, Slots);
    }
    if byteCredit {
      WokenAgree(slots, Bytes, 0);
      ResumeGivesTurn(slots, Bytes);
    }
    ReadyLeads(work, CreditStep(work, slotCredit, byteCredit).tables.ready);
  }

  lemma DuringLeads(work: Work, token: Token, poll: PollRun)
    requires Good(work) && token in work.tables.live && poll.progress.Sane()
    ensures Leads(work, work.(tables := DuringPoll(work.tables, token, poll)), true)
    ensures DuringPoll(work.tables, token, poll).live == work.tables.live[token := poll.progress]
    ensures DuringPoll(work.tables, token, poll).live.Keys == work.tables.live.Keys
  {
    DuringPollAgree(work.tables, token, poll);
    hide Tables.Agree, Accounted, Blocks, NoneStarts, Controls.Grows;
    GrowsItself(work.tables.registry);
    SameBooks(work, work.(tables := DuringPoll(work.tables, token, poll)));
  }

  /** The books do not look at the tables; the names are those of the live map. */
  lemma SameBooks(before: Work, after: Work)
    requires before == after.(tables := before.tables)
    requires after.tables.live.Keys == before.tables.live.Keys && after.tables.next == before.tables.next
    ensures Passed(before) ==> Passed(after)
    ensures Booked(before) == Booked(after)
  {
  }

  /** A poll that ends by waiting or by another turn. */
  lemma PendingLeads(work: Work, token: Token, poll: PollRun)
    requires Good(work) && token in work.tables.live && poll.progress.Sane() && !poll.end.Finished?
    ensures var next := work.(tables := AfterPoll(work.tables, token, poll));
      Leads(work, next, true) && next.tables.live.Keys == work.tables.live.Keys
  {
    AfterPollAgree(work.tables, token, poll);
    PendingShape(work.tables, token, poll);
    hide Tables.Agree, Accounted, AfterPoll, NoneStarts, Controls.Grows, DuringPoll;
    GrowsItself(work.tables.registry);
    SameBooks(work, work.(tables := AfterPoll(work.tables, token, poll)));
  }

  lemma PendingShape(tables: Tables, token: Token, poll: PollRun)
    requires token in tables.live && !poll.end.Finished?
    ensures var after := AfterPoll(tables, token, poll);
      && after.live == tables.live[token := poll.progress] && after.live.Keys == tables.live.Keys
      && after.next == tables.next && after.registry == tables.registry
  {
    hide Blocks, Park, Enqueue;
  }

  lemma PollLeads(work: Work, token: Token, poll: PollRun)
    requires Good(work) && token in work.tables.live && poll.progress.Sane()
    ensures var (next, ok) := PollStep(work, token, poll);
      && Leads(work, next, ok) && SameListener(work, next) && next.tables.live.Keys <= work.tables.live.Keys
      && (ok ==> NoneStarts(work.tables.ready, next.tables.ready, token))
      && (ok && token in next.tables.ready.states ==> !next.tables.ready.states[token].Running?)
  {
    hide Good, Leads, SameListener, AfterPoll, DuringPoll, NoneStarts, RetireStep, Tables.Agree, Progress.Sane;
    GoodAgree(work);
    AfterPollAgree(work.tables, token, poll);
    if poll.progress.counterOverflow {
      OverflowLeads(work, token, poll);
    } else if poll.end.Finished? {
      FinishedLeads(work, token, poll);
      FinishedShape(work, token, poll);
    } else {
      PendingLeads(work, token, poll);
      PendingShape(work.tables, token, poll);
      AfterPollSame(work, token, poll);
    }
  }

  lemma OverflowLeads(work: Work, token: Token, poll: PollRun)
    requires Good(work) && token in work.tables.live && poll.progress.Sane()
    ensures var during := work.(tables := DuringPoll(work.tables, token, poll));
      Leads(work, during, false) && SameListener(work, during) && during.tables.live.Keys == work.tables.live.Keys
  {
    hide Good, Leads, Blocks;
    DuringLeads(work, token, poll);
    LeadsLess(work, work.(tables := DuringPoll(work.tables, token, poll)));
  }

  lemma FinishedLeads(work: Work, token: Token, poll: PollRun)
    requires Good(work) && token in work.tables.live && poll.progress.Sane()
    requires !poll.progress.counterOverflow && poll.end.Finished?
    ensures var (next, ok) := PollStep(work, token, poll);
      Leads(work, next, ok) && SameListener(work, next) && next.tables.live.Keys <= work.tables.live.Keys
  {
    hide Good, Booked, Leads, AfterPoll, NoneStarts, RetireStep, Blocks, Controls.Grows;
    GoodAgree(work);
    DuringLeads(work, token, poll);
    var during := work.(tables := DuringPoll(work.tables, token, poll));
    GoodOf(work, during);
    RetireStepGood(during, token, Controls.ConnectionEnded);
    var (next, ok) := RetireStep(during, token, Controls.ConnectionEnded);
    RetireStepLeads(during, next, ok);
    LeadsOn(work, during, next, ok);
  }

  lemma AfterPollSame(work: Work, token: Token, poll: PollRun)
    requires !poll.end.Finished?
    ensures SameListener(work, work.(tables := AfterPoll(work.tables, token, poll)))
  {
    hide Blocks, Park, Enqueue;
  }

  lemma GoodAgree(work: Work)
    requires Good(work)
    ensures work.tables.Agree()
  {
  }

  lemma LeadsLess(before: Work, after: Work)
    requires Leads(before, after, true)
    ensures Leads(before, after, false)
  {
  }

  /** The end of a task leaves the tables that its poll is specified to leave. */
  lemma FinishedShape(work: Work, token: Token, poll: PollRun)
    requires work.tables.Agree() && token in work.tables.live && poll.progress.Sane() && poll.end.Finished?
    ensures var during := work.(tables := DuringPoll(work.tables, token, poll));
      RetireStep(during, token, Controls.ConnectionEnded).0.tables == AfterPoll(work.tables, token, poll)
  {
    DuringPollAgree(work.tables, token, poll);
    hide Tables.Agree, Retired, Blocks, NoneStarts, CloseStep;
  }

  /** Taking a task from the run queue changes no name. */
  lemma TakeLeads(work: Work)
    requires Good(work)
    ensures var (taken, token) := Take(work.tables.ready);
      && Leads(work, work.(tables := work.tables.(ready := taken)), true)
      && (token.Some? ==> token.value in work.tables.live && NoneStarts(work.tables.ready, taken, token.value))
      && (token.None? <==> work.tables.ready.queue == [])
  {
    hide Leads, Accounted, Tables.Agree, Take, NoneStarts;
    TakenAgree(work.tables);
    ReadyLeads(work, Take(work.tables.ready).0);
    if Take(work.tables.ready).1.Some? {
      TakeStartsOne(work.tables.ready);
    }
  }

  /** A bounded round of polls: every polled task was live, and is settled at the end unless a counter failed. */
  lemma {:induction false} PollsLead(work: Work, polls: seq<PollRun>, budget: nat)
    requires Good(work) && forall poll <- polls :: poll.progress.Sane()
    ensures var (next, ok, polled) := PollsFrom(work, polls, budget);
      && Leads(work, next, ok) && SameListener(work, next) && next.tables.live.Keys <= work.tables.live.Keys
      && |polled| <= budget && |polled| <= |polls|
      && (forall token <- polled :: token in work.tables.live)
      && (ok ==> |polled| == budget || |polled| == |polls| || next.tables.ready.queue == [])
    decreases |polls|
  {
    hide Good, Booked, Leads, PollStep, Take, NoneStarts, Progress.Sane;
    LeadsItself(work);
    if budget > 0 && polls != [] {
      var (taken, token) := Take(work.tables.ready);
      TakeLeads(work);
      if token.Some? {
        var running := work.(tables := work.tables.(ready := taken));
        GoodOf(work, running);
        var (next, ok) := PollStep(running, token.value, polls[0]);
        PollLeads(running, token.value, polls[0]);
        LeadsOn(work, running, next, ok);
        if ok {
          GoodOf(work, next);
          PollsLead(next, polls[1..], budget - 1);
          LeadsOn(work, next, PollsFrom(next, polls[1..], budget - 1).0, PollsFrom(next, polls[1..], budget - 1).1);
        }
      }
    }
  }

  /** From settled tasks, a round that no counter failed leaves all polled tasks settled, and those of before. */
  lemma {:induction false} PollsSettleAll(work: Work, polls: seq<PollRun>, budget: nat, before: seq<Token>)
    requires Good(work) && forall poll <- polls :: poll.progress.Sane()
    requires AllSettled(work.tables.ready, before)
    ensures var (next, ok, polled) := PollsFrom(work, polls, budget);
      ok ==> AllSettled(next.tables.ready, before + polled)
    decreases |polls|
  {
    hide Good, Booked, Leads, PollStep, Take, NoneStarts, Progress.Sane, AllSettled;
    var (last, fine, polled) := PollsFrom(work, polls, budget);
    if budget == 0 || polls == [] || Take(work.tables.ready).1.None? {
      assert before + [] == before;
    } else {
      var (taken, token) := Take(work.tables.ready);
      TakeLeads(work);
      var running := work.(tables := work.tables.(ready := taken));
      GoodOf(work, running);
      PollLeads(running, token.value, polls[0]);
      var (next, ok) := PollStep(running, token.value, polls[0]);
      if ok {
        LeadsOn(work, running, next, true);
        GoodOf(work, next);
        StartsTwice(work.tables.ready, taken, next.tables.ready, token.value);
        StaySettled(work.tables.ready, next.tables.ready, before, token.value);
        PollsSettleAll(next, polls[1..], budget - 1, before + [token.value]);
        assert before + polled == before + [token.value] + PollsFrom(next, polls[1..], budget - 1).2;
      }
    }
  }

  /** Exactly the tasks that wait for a socket with an event get a turn; the listener's event readies it. */
  lemma {:induction false} DispatchLeads(work: Work, events: seq<Token>)
    requires Good(work)
    ensures var next := DispatchStep(work, events);
      && Leads(work, next, true) && next.tables.live == work.tables.live
      && (next.listenerReady <==> work.listenerReady || LISTENER in events)
      && SameListener(work, next.(listenerReady := work.listenerReady))
    decreases |events|
  {
    hide Good, Booked, Leads, IoReady;
    if events == [] {
      LeadsItself(work);
    } else {
      var next := OneDispatch(work, events[0]);
      OneDispatchLeads(work, events[0]);
      GoodOf(work, next);
      DispatchLeads(next, events[1..]);
      LeadsOn(work, next, DispatchStep(next, events[1..]), true);
      assert events == [events[0]] + events[1..];
    }
  }

  lemma OneDispatchLeads(work: Work, event: Token)
    requires Good(work)
    ensures Leads(work, OneDispatch(work, event), true)
  {
    hide Tables.Agree, Accounted, IoReady, Controls.Grows;
    if event == LISTENER || event == CONTROL {
      GrowsItself(work.tables.registry);
      hide SumsOf, Count;
    } else {
      WokenAgree(work.tables, Slots, event);
      ReadyLeads(work, IoReady(work.tables.ready, event));
    }
  }

  lemma {:induction false} DispatchExact(work: Work, events: seq<Token>, first: Ready, before: seq<Token>)
    requires Dispatched(first, work.tables.ready, before)
    ensures Dispatched(first, DispatchStep(work, events).tables.ready, before + events)
    decreases |events|
  {
    hide Dispatched, IoReady;
    if events == [] {
      assert before + [] == before;
    } else {
      OneDispatched(first, work.tables.ready, before, events[0]);
      DispatchExact(OneDispatch(work, events[0]), events[1..], first, before + [events[0]]);
      assert before + events == before + [events[0]] + events[1..];
    }
  }
}
