/** What whole turns and whole runs of the worker do for those who wait on it. */
module TurnService {
  import opened Wire
  import opened Records
  import opened Orders
  import opened ReadySet
  import opened Driver
  import opened Turns
  import opened TurnLaws
  import opened ListenerLaws
  import opened EntryLaws
  import opened RunLaws
  import opened ServiceLaws
  import Controls

  // Close calls in a turn.

  /** The two looks at the request marks before the polls. */
  lemma FirstHonoured(work: Work, turn: Turn)
    requires Good(work) && !work.tables.registry.stopping
    ensures var (next, ok) := FirstRetire(work, turn);
      && KeepsTurns(work.tables.ready, next.tables.ready, [])
      && next.tables.live.Keys <= work.tables.live.Keys
      && (ok ==> forall token <- work.tables.live :: AskedBy(work, turn, token) ==>
            next.tables.registry.TicketResult(work.tables.Id(token)) == Some(Controls.RetiredByRequest))
  {
    hide Good, LateRetire, Asked, Leads, KeepsTurns, Controls.Registry.TicketResult;
    CallsHonoured(work, turn.early);
    LateLeads(work, turn.early);
    var (next, ok) := LateRetire(work, turn.early);
    GoodAfter(work, next, ok);
    if ok && turn.control.Some? {
      StillRuns(work, next, ok);
      CallsHonoured(next, turn.control.value);
      LateLeads(next, turn.control.value);
      var (last, fine) := LateRetire(next, turn.control.value);
      GoodAfter(next, last, fine);
      TicketsStay(next, last, fine);
      FewerReturn(work, next, last);
      NoneTwice(work.tables.ready, next.tables.ready, last.tables.ready);
    }
  }

  /** Somebody asked to close this connection before the polls of a turn. */
  predicate AskedBy(work: Work, turn: Turn, token: Token) {
    || Asked(work.tables, token)
    || work.tables.Id(token) in turn.early
    || (turn.control.Some? && work.tables.Id(token) in turn.control.value)
  }

  lemma StillRuns(before: Work, after: Work, ok: bool)
    requires Leads(before, after, ok)
    ensures after.tables.registry.stopping == before.tables.registry.stopping
  {
  }

  lemma TicketsStay(before: Work, after: Work, ok: bool)
    requires Leads(before, after, ok)
    ensures forall id :: before.tables.registry.TicketResult(id).Some? ==>
      after.tables.registry.TicketResult(id) == before.tables.registry.TicketResult(id)
  {
    hide Good, Booked;
  }

  // The round before the listener.

  /** The worker when it looks at its run queue, and whom it polls then. */
  function AtPolls(work: Work, turn: Turn): Work {
    CreditStep(FirstRetire(work, turn).0, turn.slotCredit, turn.byteCredit)
  }

  function PolledIn(work: Work, turn: Turn): seq<Token> {
    PollsFrom(AtPolls(work, turn), turn.polls, TURN_BATCH).2
  }

  /** A head that had credit was polled in this turn, or owns a turn, or is gone. */
  ghost predicate HeadServed(before: Ready, after: Ready, polled: seq<Token>, reason: Scarce) {
    var waiters := before.Waiters(reason);
    waiters != [] ==> waiters[0] in polled || waiters[0] !in after.states || after.Runnable(waiters[0])
  }

  /** The parts of a round that no counter failed, and what each keeps. */
  lemma PollsGood(work: Work, turn: Turn)
    requires Good(work) && !work.tables.registry.stopping && SaneTurn(turn) && FirstRetire(work, turn).1
    ensures var first, credited := FirstRetire(work, turn).0, AtPolls(work, turn);
      && Good(first) && Good(credited) && Leads(work, credited, true) && !credited.tables.registry.stopping
      && credited.tables.live == first.tables.live && SameListener(work, credited)
  {
    hide Good, Leads, FirstRetire, CreditStep, Controls.Grows;
    FirstLeads(work, turn);
    var first := FirstRetire(work, turn).0;
    GoodAfter(work, first, true);
    CreditLeads(first, turn.slotCredit, turn.byteCredit);
    var credited := AtPolls(work, turn);
    GoodAfter(first, credited, true);
    LeadsOn(work, first, credited, true);
    StillRuns(work, credited, true);
  }

  lemma CreditTurns(work: Work, slotCredit: bool, byteCredit: bool)
    requires Good(work)
    ensures KeepsTurns(work.tables.ready, CreditStep(work, slotCredit, byteCredit).tables.ready, [])
    ensures CreditStep(work, slotCredit, byteCredit).tables.ready.states.Keys == work.tables.ready.states.Keys
  {
    hide ResumeHead, Accounted;
    var tables := work.tables;
    var slots := tables.(ready := ResumeStep(tables.ready, Slots, slotCredit));
    SameTurns(tables.ready);
    if slotCredit {
      WokenAgree(tables, Slots, 0);
      ResumeGivesTurn(tables, Slots);
      ResumeKeys(tables.ready, Slots);
    }
    if byteCredit {
      ResumeGivesTurn(slots, Bytes);
      ResumeKeys(slots.ready, Bytes);
    }
    hide Tables.Agree;
  }

  lemma ResumeKeys(ready: Ready, reason: Scarce)
    ensures ResumeHead(ready, reason).0.states.Keys == ready.states.Keys
  {
    var waiters := ready.Waiters(reason);
    if waiters != [] && waiters[0] in ready.states {
      assert (ready.states[waiters[0] := Notified]).Keys == ready.states.Keys;
      assert (ready.states[waiters[0] := Queued]).Keys == ready.states.Keys;
    }
  }

  /** A connection that is gone has the result of its ticket. */
  lemma GoneHasTicket(before: Work, after: Work, ok: bool)
    requires Good(before) && Leads(before, after, ok)
    ensures forall token <- before.tables.live :: token !in after.tables.live ==>
      after.tables.registry.TicketResult(before.tables.Id(token)).Some?
  {
    GoneNamed(before.tables, after.tables);
    hide Tables.Agree, Accounted, Booked;
  }

  lemma GoneNamed(before: Tables, after: Tables)
    requires before.Agree() && after.Agree() && Controls.Grows(before.registry, after.registry)
    ensures forall token <- before.live :: token !in after.live ==>
      after.registry.TicketResult(before.Id(token)).Some?
  {
    hide Ready.Consistent, Controls.Inv;
    forall token | token in before.live && token !in after.live
      ensures after.registry.TicketResult(before.Id(token)).Some?
    {
      assert before.Id(token) in before.registry.entries;
      assert before.Id(token) in before.registry.Known();
      assert before.Id(token) in after.registry.Known();
      assert before.Id(token) !in after.registry.entries;
    }
  }

  /** What a round before the listener did, by its end. */
  ghost predicate Serviced(work: Work, turn: Turn, served: Work) {
    var polled := PolledIn(work, turn);
    && KeepsTurns(work.tables.ready, served.tables.ready, polled)
    && (turn.slotCredit ==> HeadServed(AtPolls(work, turn).tables.ready, served.tables.ready, polled, Slots))
    && (turn.byteCredit ==> HeadServed(AtPolls(work, turn).tables.ready, served.tables.ready, polled, Bytes))
    && (forall token <- work.tables.live :: AskedBy(work, turn, token) ==>
          served.tables.registry.TicketResult(work.tables.Id(token)) == Some(Controls.RetiredByRequest))
    && (forall token <- work.tables.live :: work.tables.Id(token) in turn.late ==>
          served.tables.registry.TicketResult(work.tables.Id(token)).Some?)
    && |polled| <= |turn.polls|
    && forall i :: 0 <= i < |polled| ==> ShownAt(served, turn.polls, polled, i)
  }

  /** Who is still there after its last poll at `i` shows what that poll reported, and was not finished by it. */
  predicate ShownAt(after: Work, polls: seq<PollRun>, polled: seq<Token>, i: nat)
    requires i < |polled| <= |polls|
  {
    (forall j :: i < j < |polled| ==> polled[j] != polled[i]) && polled[i] in after.tables.live ==>
      !polls[i].end.Finished? && after.tables.live[polled[i]] == polls[i].progress
  }

  lemma ServeTickets(work: Work, turn: Turn)
    requires Good(work) && !work.tables.registry.stopping && SaneTurn(turn) && ServeStep(work, turn).1
    ensures var served := ServeStep(work, turn).0;
      && (forall token <- work.tables.live :: AskedBy(work, turn, token) ==>
            served.tables.registry.TicketResult(work.tables.Id(token)) == Some(Controls.RetiredByRequest))
      && (forall token <- work.tables.live :: work.tables.Id(token) in turn.late ==>
            served.tables.registry.TicketResult(work.tables.Id(token)).Some?)
  {
    hide Good, Leads, FirstRetire, LateRetire, CreditStep, PollsFrom, Asked, KeepsTurns, Controls.Registry.TicketResult,
      AskedBy, SaneTurn;
    FirstHonoured(work, turn);
    PollsGood(work, turn);
    var first, credited := FirstRetire(work, turn).0, AtPolls(work, turn);
    CreditLeads(first, turn.slotCredit, turn.byteCredit);
    TicketsStay(first, credited, true);
    RoundGood(credited, turn);
    var polled := PollsFrom(credited, turn.polls, TURN_BATCH).0;
    TicketsStay(credited, polled, true);
    CallsHonoured(polled, turn.late);
    LateLeads(polled, turn.late);
    var served := LateRetire(polled, turn.late).0;
    TicketsStay(polled, served, true);
    ServeLeads(work, turn);
    GoneHasTicket(work, served, true);
  }

  lemma RoundGood(credited: Work, turn: Turn)
    requires Good(credited) && !credited.tables.registry.stopping && SaneTurn(turn)
    requires PollsFrom(credited, turn.polls, TURN_BATCH).1
    ensures var polled := PollsFrom(credited, turn.polls, TURN_BATCH).0;
      && Good(polled) && Leads(credited, polled, true) && !polled.tables.registry.stopping
      && polled.tables.live.Keys <= credited.tables.live.Keys
  {
    hide Good, Leads, PollsFrom;
    PollsLead(credited, turn.polls, TURN_BATCH);
    var polled := PollsFrom(credited, turn.polls, TURN_BATCH).0;
    GoodAfter(credited, polled, true);
    StillRuns(credited, polled, true);
  }

  /** Turns from the start of a turn to its round of polls. */
  lemma TurnsToPolls(work: Work, turn: Turn)
    requires Good(work) && !work.tables.registry.stopping && SaneTurn(turn) && FirstRetire(work, turn).1
    ensures KeepsTurns(work.tables.ready, AtPolls(work, turn).tables.ready, [])
    ensures AtPolls(work, turn).tables.ready.states.Keys <= work.tables.ready.states.Keys
  {
    hide Good, Leads, FirstRetire, CreditStep, KeepsTurns;
    FirstHonoured(work, turn);
    PollsGood(work, turn);
    var first, credited := FirstRetire(work, turn).0, AtPolls(work, turn);
    CreditTurns(first, turn.slotCredit, turn.byteCredit);
    GoodStates(work);
    GoodStates(first);
    NoneTwice(work.tables.ready, first.tables.ready, credited.tables.ready);
  }

  /** And from there to the end of the round before the listener. */
  lemma TurnsFromPolls(work: Work, turn: Turn)
    requires Good(work) && !work.tables.registry.stopping && SaneTurn(turn) && ServeStep(work, turn).1
    ensures var served := ServeStep(work, turn).0;
      && KeepsTurns(AtPolls(work, turn).tables.ready, served.tables.ready, PolledIn(work, turn))
      && served.tables.ready.states.Keys <= AtPolls(work, turn).tables.ready.states.Keys
  {
    hide Good, Leads, FirstRetire, LateRetire, CreditStep, PollsFrom, Asked, KeepsTurns, Controls.Registry.TicketResult,
      SaneTurn;
    PollsGood(work, turn);
    var credited := AtPolls(work, turn);
    RoundGood(credited, turn);
    SanePolls(turn);
    RoundKeepsTurns(credited, turn.polls, TURN_BATCH);
    var polled := PollsFrom(credited, turn.polls, TURN_BATCH).0;
    CallsHonoured(polled, turn.late);
    LateLeads(polled, turn.late);
    var served := LateRetire(polled, turn.late).0;
    GoodAfter(polled, served, true);
    GoodStates(credited);
    GoodStates(polled);
    GoodStates(served);
    TurnsTwice(credited.tables.ready, polled.tables.ready, served.tables.ready, PolledIn(work, turn), []);
    assert PolledIn(work, turn) + [] == PolledIn(work, turn);
  }

  lemma SanePolls(turn: Turn)
    requires SaneTurn(turn)
    ensures forall poll <- turn.polls :: poll.progress.Sane()
  {
  }

  lemma ServeShows(work: Work, turn: Turn)
    requires Good(work) && !work.tables.registry.stopping && SaneTurn(turn) && ServeStep(work, turn).1
    ensures var served, polled := ServeStep(work, turn).0, PolledIn(work, turn);
      && |polled| <= |turn.polls|
      && forall i :: 0 <= i < |polled| ==> ShownAt(served, turn.polls, polled, i)
  {
    hide Good, Leads, FirstRetire, LateRetire, CreditStep, PollsFrom, Asked, KeepsTurns, Controls.Registry.TicketResult,
      SaneTurn;
    PollsGood(work, turn);
    var credited := AtPolls(work, turn);
    RoundGood(credited, turn);
    SanePolls(turn);
    RoundReports(credited, turn.polls, TURN_BATCH);
    var after := PollsFrom(credited, turn.polls, TURN_BATCH).0;
    CallsHonoured(after, turn.late);
    var served, polled := ServeStep(work, turn).0, PolledIn(work, turn);
    forall i | 0 <= i < |polled|
      ensures ShownAt(served, turn.polls, polled, i)
    {
      assert ReportedAt(after, turn.polls, polled, i);
    }
  }

  lemma HeadsServed(credited: Ready, served: Ready, polled: seq<Token>, reason: Scarce)
    requires KeepsTurns(credited, served, polled)
    requires credited.Waiters(reason) != [] ==> credited.Runnable(credited.Waiters(reason)[0])
    ensures HeadServed(credited, served, polled, reason)
  {
  }

  /** A round serves everyone it should: requests to close, turns, credited heads, and the polls that it makes. */
  lemma ServeServices(work: Work, turn: Turn)
    requires Good(work) && !work.tables.registry.stopping && SaneTurn(turn) && ServeStep(work, turn).1
    ensures Serviced(work, turn, ServeStep(work, turn).0)
  {
    hide Good, Leads, FirstRetire, ServeStep, CreditStep, PollsFrom, KeepsTurns, HeadServed, SaneTurn, AskedBy, ShownAt,
      Controls.Registry.TicketResult;
    FirstServes(work, turn);
    ServeTickets(work, turn);
    TurnsToPolls(work, turn);
    TurnsFromPolls(work, turn);
    ServeShows(work, turn);
    PollsGood(work, turn);
    var first, credited, served := FirstRetire(work, turn).0, AtPolls(work, turn), ServeStep(work, turn).0;
    CreditLeads(first, turn.slotCredit, turn.byteCredit);
    var polled := PolledIn(work, turn);
    if turn.slotCredit {
      HeadsServed(credited.tables.ready, served.tables.ready, polled, Slots);
    }
    if turn.byteCredit {
      HeadsServed(credited.tables.ready, served.tables.ready, polled, Bytes);
    }
    KeysOnly(work.tables.ready, credited.tables.ready, served.tables.ready);
    TurnsTwice(work.tables.ready, credited.tables.ready, served.tables.ready, [], polled);
    assert [] + polled == polled;
  }

  lemma FirstServes(work: Work, turn: Turn)
    requires ServeStep(work, turn).1
    ensures FirstRetire(work, turn).1
  {
  }

  lemma KeysOnly(first: Ready, second: Ready, third: Ready)
    requires third.states.Keys <= second.states.Keys
    ensures NoneReturns(first, second, third)
  {
  }

  // A whole turn.

  /** The attempts of a turn as its history shows them: in order, and as many as the turn may make. */
  predicate AcceptedAs(work: Work, turn: Turn, next: Work, tries: nat) {
    var first := |work.marks|;
    && tries <= |turn.attempts| && tries <= work.turnSteps && tries <= EVENT_BATCH
    && first + tries <= |next.marks| <= first + tries + 1
    && next.marks[..first] == work.marks && TriedAll(next.marks, first, turn.attempts, tries)
    && (tries == |turn.attempts| || tries == work.turnSteps || tries == EVENT_BATCH
        || (tries > 0 && (turn.attempts[tries - 1].outcome.Drained? || turn.attempts[tries - 1].outcome.Pause?)))
  }

  predicate AcceptedIn(work: Work, turn: Turn, next: Work) {
    if !work.listenerReady || StillPaused(work.pausedAt, turn.now) then next.marks == work.marks
    else exists tries :: 0 <= tries <= |turn.attempts| && AcceptedAs(work, turn, next, tries)
  }

  lemma AcceptsIn(work: Work, turn: Turn)
    requires AcceptTurn(work, turn.now, turn.attempts).1.Ok?
    ensures AcceptedIn(work, turn, AcceptTurn(work, turn.now, turn.attempts).0)
  {
    hide AcceptTurn, TriedAll;
    AcceptTurnRecords(work, turn.now, turn.attempts);
    var (after, r, tries) := AcceptTurn(work, turn.now, turn.attempts);
    if work.listenerReady && !StillPaused(work.pausedAt, turn.now) {
      assert AcceptedAs(work, turn, after, tries);
    }
  }

  lemma SameAccepted(work: Work, served: Work, turn: Turn, accepted: Work, next: Work)
    requires SameListener(work, served) && next.marks == accepted.marks && AcceptedIn(served, turn, accepted)
    ensures AcceptedIn(work, turn, next)
  {
    hide TriedAll;
    if served.listenerReady && !StillPaused(served.pausedAt, turn.now) {
      var tries :| 0 <= tries <= |turn.attempts| && AcceptedAs(served, turn, accepted, tries);
      assert AcceptedAs(work, turn, next, tries);
    }
  }

  /** Accepting takes no turn away, and admits nobody who was there before. */
  lemma AcceptTurns(work: Work, served: Work, turn: Turn)
    requires Good(work) && Good(served) && !served.tables.registry.stopping && SameListener(work, served)
    requires Good(AcceptTurn(served, turn.now, turn.attempts).0)
    ensures var accepted := AcceptTurn(served, turn.now, turn.attempts).0;
      && KeepsTurns(served.tables.ready, accepted.tables.ready, [])
      && NoneReturns(work.tables.ready, served.tables.ready, accepted.tables.ready)
  {
    hide Good, AcceptTurn, TurnFated, AllStay, NobodyElse, KeepsTurns, NoneReturns;
    AcceptTurnFates(served, turn.now, turn.attempts);
    var (accepted, r, tries) := AcceptTurn(served, turn.now, turn.attempts);
    FateParts(served, accepted, tries, r);
    GoodStates(served);
    StayTurns(served.tables, accepted.tables);
    NewcomersReturn(work, served, accepted);
  }

  lemma FateParts(before: Work, after: Work, tries: nat, r: Result<(), Failure>)
    requires TurnFated(before, after, tries, r)
    ensures AllStay(before.tables, after.tables) && before.admitted <= after.admitted
    ensures NobodyElse(before.tables.live.Keys, after.tables.live.Keys, after.admitted, |before.admitted|)
  {
    hide AllStay, NewAtWork, NobodyElse, PeersFated, EntriesIn;
  }

  lemma StayTurns(before: Tables, after: Tables)
    requires AllStay(before, after) && before.ready.states.Keys == before.live.Keys
    ensures KeepsTurns(before.ready, after.ready, [])
  {
    forall token | before.ready.Runnable(token)
      ensures after.ready.Runnable(token)
    {
      assert token in before.live.Keys;
      assert StaysAs(before, after, token);
    }
  }

  lemma NewcomersReturn(work: Work, served: Work, accepted: Work)
    requires Good(work) && Good(served) && Good(accepted) && SameListener(work, served)
    requires served.admitted <= accepted.admitted
    requires NobodyElse(served.tables.live.Keys, accepted.tables.live.Keys, accepted.admitted, |served.admitted|)
    ensures NoneReturns(work.tables.ready, served.tables.ready, accepted.tables.ready)
  {
    hide Good, NobodyElse, Distinct;
    GoodStates(work);
    GoodStates(served);
    GoodStates(accepted);
    AdmittedOnce(work);
    AdmittedOnce(accepted);
    NoneAgain(work.admitted, accepted.admitted, work.tables.live.Keys, served.tables.live.Keys,
              accepted.tables.live.Keys);
  }

  lemma NoneAgain(known: seq<Token>, admitted: seq<Token>, live: set<Token>, left: set<Token>, now: set<Token>)
    requires Distinct(admitted) && known <= admitted && forall token <- live :: token in known
    requires NobodyElse(left, now, admitted, |known|)
    ensures live * now <= left
  {
    forall token | token in live && token in now
      ensures token in left
    {
      var i :| 0 <= i < |known| && known[i] == token;
      assert admitted[i] == token;
      assert forall j :: 0 <= j < |admitted[|known|..]| ==> admitted[|known|..][j] == admitted[|known| + j];
    }
  }

  lemma AdmittedOnce(work: Work)
    requires Good(work)
    ensures Distinct(work.admitted) && forall token <- work.tables.live :: token in work.admitted
  {
    hide Tables.Agree;
  }

  lemma DispatchTurns(work: Work, events: seq<Token>)
    ensures var next := DispatchStep(work, events).tables.ready;
      && KeepsTurns(work.tables.ready, next, []) && next.states.Keys == work.tables.ready.states.Keys
      && (forall token <- events :: token != LISTENER && token != CONTROL && token in next.states ==>
            next.states[token] != Waiting(Kernel))
  {
    hide DispatchStep;
    NothingDispatched(work.tables.ready);
    DispatchExact(work, events, work.tables.ready, []);
    assert [] + events == events;
  }

  /** What a turn that goes on has done. */
  ghost predicate Delivered(work: Work, turn: Turn, next: Work) {
    && (exists served: Work :: Serviced(work, turn, served) && SameListener(work, served)
          && Controls.Grows(served.tables.registry, next.tables.registry))
    && KeepsTurns(work.tables.ready, next.tables.ready, PolledIn(work, turn))
    && AcceptedIn(work, turn, next)
    && (LISTENER in turn.events ==> next.listenerReady)
    && (forall token <- turn.events :: token != LISTENER && token != CONTROL && token in next.tables.ready.states ==>
          next.tables.ready.states[token] != Waiting(Kernel))
  }

  /**
   * A turn that goes on has honoured the requests to close, polled its round, lost no turn, delivered credit and
   * network events, and made its accept attempts; one that does not go on says why.
   */
  lemma TurnDelivers(work: Work, turn: Turn)
    requires Good(work) && !work.tables.registry.stopping && SaneTurn(turn) && AtPace(work)
    requires work.clock <= turn.now && Timed(turn.now, turn.attempts)
    ensures var (next, outcome) := TurnStep(work, turn);
      && (outcome.Goes? ==> Delivered(work, turn, next))
      && (outcome.Stopped? ==> turn.stopped)
      && (outcome == Broken(Io) ==>
            turn.wakeFailed || turn.pollFails || exists attempt <- turn.attempts :: Faulty(attempt.outcome))
      && (turn.wakeFailed ==> outcome == Broken(Io) && next == work)
  {
    hide Good, Leads, ServeStep, AcceptTurn, DispatchStep, SaneTurn, Serviced, SameListener, AtPace, KeepsTurns,
      AcceptedIn, NoneReturns, Controls.Grows, Timed;
    if !turn.wakeFailed && ServeStep(work, turn).1 && !turn.stopped {
      ServedParts(work, turn);
      var served := ServeStep(work, turn).0;
      AcceptCause(served, turn);
      var (accepted, r, _) := AcceptTurn(served, turn.now, turn.attempts);
      if r.Ok? && !turn.pollFails {
        GoesDelivers(work, turn);
      }
    }
  }

  lemma AcceptCause(work: Work, turn: Turn)
    ensures AcceptTurn(work, turn.now, turn.attempts).1 == Err(Io) ==>
      exists attempt <- turn.attempts :: Faulty(attempt.outcome)
  {
    hide AcceptTurn, TriedAll;
    AcceptTurnRecords(work, turn.now, turn.attempts);
  }

  /** The state between the round and the listener. */
  lemma ServedParts(work: Work, turn: Turn)
    requires Good(work) && !work.tables.registry.stopping && SaneTurn(turn) && ServeStep(work, turn).1 && AtPace(work)
    ensures var served := ServeStep(work, turn).0;
      && Good(served) && !served.tables.registry.stopping && SameListener(work, served) && AtPace(served)
      && Serviced(work, turn, served)
  {
    hide Good, Leads, ServeStep, SaneTurn, Serviced;
    ServeLeads(work, turn);
    ServeServices(work, turn);
    var served := ServeStep(work, turn).0;
    GoodAfter(work, served, true);
    StillRuns(work, served, true);
  }

  lemma GoesDelivers(work: Work, turn: Turn)
    requires Good(work) && !work.tables.registry.stopping && SaneTurn(turn) && AtPace(work)
    requires work.clock <= turn.now && Timed(turn.now, turn.attempts)
    requires TurnStep(work, turn).1.Goes?
    ensures Delivered(work, turn, TurnStep(work, turn).0)
  {
    hide Good, Leads, ServeStep, AcceptTurn, DispatchStep, SaneTurn, Serviced, AtPace, KeepsTurns,
      AcceptedIn, NoneReturns, Controls.Grows, Timed;
    ServedParts(work, turn);
    var served := ServeStep(work, turn).0;
    AcceptTurnLeads(served, turn.now, turn.attempts);
    var accepted := AcceptTurn(served, turn.now, turn.attempts).0;
    GoodAfter(served, accepted, true);
    AcceptsIn(served, turn);
    AcceptTurns(work, served, turn);
    DispatchTurns(accepted, turn.events);
    DispatchLeads(accepted, turn.events);
    var next := DispatchStep(accepted, turn.events);
    SameAccepted(work, served, turn, accepted, next);
    TurnsOfTurn(work, turn, served, accepted, next);
    LeadsGrow(served, accepted, next);
  }

  lemma LeadsGrow(first: Work, second: Work, third: Work)
    requires Leads(first, second, true) && Leads(second, third, true)
    ensures Controls.Grows(first.tables.registry, third.tables.registry)
  {
    hide Good, Booked;
    GrowsTwice(first.tables.registry, second.tables.registry, third.tables.registry);
  }

  lemma TurnsOfTurn(work: Work, turn: Turn, served: Work, accepted: Work, next: Work)
    requires Serviced(work, turn, served)
    requires KeepsTurns(served.tables.ready, accepted.tables.ready, [])
    requires NoneReturns(work.tables.ready, served.tables.ready, accepted.tables.ready)
    requires KeepsTurns(accepted.tables.ready, next.tables.ready, [])
    requires next.tables.ready.states.Keys == accepted.tables.ready.states.Keys
    ensures KeepsTurns(work.tables.ready, next.tables.ready, PolledIn(work, turn))
  {
    var polled := PolledIn(work, turn);
    hide KeepsTurns, PolledIn, HeadServed, AskedBy, ShownAt, AtPolls;
    TurnsTwice(work.tables.ready, served.tables.ready, accepted.tables.ready, polled, []);
    assert polled + [] == polled;
    KeysOnly(work.tables.ready, accepted.tables.ready, next.tables.ready);
    TurnsTwice(work.tables.ready, accepted.tables.ready, next.tables.ready, polled, []);
  }
}
