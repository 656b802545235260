/** What a whole run of the worker comes to. */
module RunLaws {
  import opened Wire
  import opened Records
  import opened Orders
  import opened ReadySet
  import opened Driver
  import opened Turns
  import opened TurnLaws
  import opened ListenerLaws
  import Controls
  import Maps

  /** No turn reads a time before one that an earlier turn read, and every report is sane. */
  predicate Clocked(turns: seq<Turn>, clock: nat) {
    && (forall i :: 0 <= i < |turns| ==> clock <= turns[i].now && Timed(turns[i].now, turns[i].attempts))
    && (forall i, j :: 0 <= i < j < |turns| ==> turns[i].now <= turns[j].now)
    && (forall i, j, k :: 0 <= i < j < |turns| && 0 <= k < |turns[i].attempts| ==>
          turns[i].attempts[k].after <= turns[j].now)
  }

  predicate SaneTurn(turn: Turn) {
    forall poll <- turn.polls :: poll.progress.Sane()
  }

  lemma LateLeads(work: Work, ids: seq<ConnectionId>)
    requires Good(work)
    ensures var (next, ok) := LateRetire(work, ids); Leads(work, next, ok) && SameListener(work, next)
  {
    hide Good, Leads, RetireAsked, CallsStep;
    CallsLeads(work, ids);
    var called := CallsStep(work, ids);
    GoodOf(work, called);
    RetireAskedLeads(called);
    LeadsOn(work, called, RetireAsked(called).0, RetireAsked(called).1);
  }

  lemma FirstLeads(work: Work, turn: Turn)
    requires Good(work)
    ensures var (next, ok) := FirstRetire(work, turn); Leads(work, next, ok) && SameListener(work, next)
  {
    hide Good, Leads, LateRetire;
    LateLeads(work, turn.early);
    var (next, ok) := LateRetire(work, turn.early);
    if ok && turn.control.Some? {
      GoodOf(work, next);
      LateLeads(next, turn.control.value);
      var (last, fine) := LateRetire(next, turn.control.value);
      LeadsOn(work, next, last, fine);
    }
  }

  lemma ServeLeads(work: Work, turn: Turn)
    requires Good(work) && SaneTurn(turn)
    ensures var (next, ok) := ServeStep(work, turn); Leads(work, next, ok) && SameListener(work, next)
  {
    hide Good, Leads, LateRetire, FirstRetire, PollsFrom, CreditStep, Progress.Sane;
    FirstLeads(work, turn);
    var (first, ok) := FirstRetire(work, turn);
    if ok {
      GoodOf(work, first);
      CreditLeads(first, turn.slotCredit, turn.byteCredit);
      var credited := CreditStep(first, turn.slotCredit, turn.byteCredit);
      LeadsOn(work, first, credited, true);
      GoodOf(first, credited);
      PollsLead(credited, turn.polls, TURN_BATCH);
      var (polled, ran, _) := PollsFrom(credited, turn.polls, TURN_BATCH);
      LeadsOn(work, credited, polled, ran);
      if ran {
        GoodOf(work, polled);
        LateLeads(polled, turn.late);
        LeadsOn(work, polled, LateRetire(polled, turn.late).0, LateRetire(polled, turn.late).1);
      }
    }
  }

  /** A turn keeps tables, books, limit and pace; after it no clock reading is later than its own. */
  lemma TurnLeads(work: Work, turn: Turn)
    requires Good(work) && !work.tables.registry.stopping && AtPace(work) && SaneTurn(turn)
    requires work.clock <= turn.now && Timed(turn.now, turn.attempts)
    ensures var (next, outcome) := TurnStep(work, turn);
      && Leads(work, next, outcome != Broken(CounterExhausted)) && AtPace(next)
      && (next.clock == work.clock || next.clock == turn.now
          || exists i :: 0 <= i < |turn.attempts| && next.clock == turn.attempts[i].after)
  {
    hide Good, ServeStep, AcceptTurn, DispatchStep, PacedUntil, Booked, SaneTurn, Controls.Grows;
    LeadsItself(work);
    if !turn.wakeFailed {
      ServeLeads(work, turn);
      var (served, ok) := ServeStep(work, turn);
      if ok && !turn.stopped {
        AcceptTurnLeads(served, turn.now, turn.attempts);
        var (accepted, r, _) := AcceptTurn(served, turn.now, turn.attempts);
        if r != Err(CounterExhausted) {
          LeadsOn(work, served, accepted, true);
          DispatchLeads(accepted, turn.events);
          LeadsOn(work, accepted, DispatchStep(accepted, turn.events), true);
        } else {
          LeadsOn(work, served, accepted, false);
        }
      }
    }
  }

  /** A reading of the first turn is no later than any of the turns after it. */
  lemma ClockedOn(turns: seq<Turn>, clock: nat, reading: nat)
    requires turns != [] && Clocked(turns, clock)
    requires reading == clock || reading == turns[0].now
      || exists i :: 0 <= i < |turns[0].attempts| && reading == turns[0].attempts[i].after
    ensures Clocked(turns[1..], reading)
  {
    assert forall i :: 0 <= i < |turns| - 1 ==> turns[1..][i] == turns[i + 1];
  }

  lemma {:induction false} DriveLeads(work: Work, turns: seq<Turn>)
    requires Good(work) && !work.tables.registry.stopping && AtPace(work) && Clocked(turns, work.clock)
    requires forall turn <- turns :: SaneTurn(turn)
    ensures var (next, outcome) := DriveStep(work, turns);
      && Leads(work, next, outcome != Broken(CounterExhausted)) && AtPace(next) && !outcome.Goes?
      && |next.tables.live| <= next.tables.maxConnections
    decreases |turns|
  {
    hide Good, TurnStep, AtPace, Booked, SaneTurn, Controls.Grows;
    LeadsItself(work);
    NextFits(DriveStep(work, []).0);
    if turns != [] {
      TurnLeads(work, turns[0]);
      var (next, outcome) := TurnStep(work, turns[0]);
      NextFits(next);
      if outcome.Goes? {
        ClockedOn(turns, work.clock, next.clock);
        DriveLeads(next, turns[1..]);
        var (last, end) := DriveStep(next, turns[1..]);
        LeadsOn(work, next, last, end != Broken(CounterExhausted));
      }
    }
  }

  /** When shutdown reports complete counters, no counter failed in it. */
  lemma {:induction false} RetireAllComplete(work: Work)
    requires Good(work)
    ensures var (next, ok) := RetireAll(work);
      next.summary.countersComplete ==> ok && work.summary.countersComplete
    decreases |work.tables.live|
  {
    if work.tables.live != map[] {
      var token := Least(work.tables.live.Keys);
      Maps.OneLess(work.tables.live, token);
      RetireStepGood(work, token, Controls.ReceiverStopped);
      RetireStepShape(work, token, Controls.ReceiverStopped);
      GoodParts(work, token);
      CloseComplete(work.summary, work.tables.live[token]);
      hide Good, CloseStep, RetireStep;
      RetireAllComplete(RetireStep(work, token, Controls.ReceiverStopped).0);
    }
  }

  lemma GoodParts(work: Work, token: Token)
    requires Good(work) && token in work.tables.live
    ensures work.summary.Solvent() && work.tables.live[token].Sane()
  {
    AgreeFacts(work.tables);
  }

  lemma CloseComplete(summary: RunSummary, progress: Progress)
    requires summary.Solvent() && progress.Sane()
    ensures var (after, ok) := CloseStep(summary, progress, Controls.ReceiverStopped);
      after.countersComplete ==> ok && summary.countersComplete
  {
  }

  lemma StopGood(work: Work)
    requires Good(work) && work.tables.live == map[]
    ensures var next := StopStep(work);
      && Good(next) && next.tables.registry.stopping && Booked(next) == Booked(work)
      && Controls.Grows(work.tables.registry, next.tables.registry)
      && forall id <- next.tables.registry.asked :: next.tables.registry.TicketResult(id).Some?
  {
    StoppedAgree(work.tables);
    hide Tables.Agree, Accounted, SumsOf, Count, Controls.Grows, Controls.Registry.TicketResult;
  }

  /** Flagging incomplete counters changes nothing else. */
  lemma FlaggedGood(work: Work, outcome: Outcome)
    requires Good(work)
    ensures Good(Flagged(work, outcome)) && Flagged(work, outcome).tables == work.tables
    ensures SameListener(work, Flagged(work, outcome))
    ensures outcome == Broken(CounterExhausted) ==> !Flagged(work, outcome).summary.countersComplete
  {
    hide Tables.Agree, Accounted;
  }

  /**
   * A whole run, whatever its turns bring: nothing stays live, every ticket ever given has its one result, every
   * admitted connection was closed once, attempts kept their pace; and if the counters are reported complete, each
   * of them is the sum or the count of what it stands for.
   */
  lemma {:induction false} RunKeeps(work: Work, turns: seq<Turn>)
    requires Good(work) && Booked(work) && !work.tables.registry.stopping && AtPace(work)
    requires Clocked(turns, work.clock) && forall turn <- turns :: SaneTurn(turn)
    ensures var (final, outcome) := RunStep(work, turns);
      && Good(final) && final.tables.live == map[] && final.tables.registry.stopping
      && |DriveStep(work, turns).0.tables.live| <= work.tables.maxConnections
      && Paced(final.marks)
      && Controls.Grows(work.tables.registry, final.tables.registry)
      && (forall id <- final.tables.registry.asked :: final.tables.registry.TicketResult(id).Some?)
      && (final.summary.countersComplete ==> Booked(final) && outcome != Broken(CounterExhausted))
  {
    hide Good, Booked, DriveStep, RetireAll, Clocked, SaneTurn, Controls.Grows, PacedUntil, StopStep, Flagged;
    DriveLeads(work, turns);
    var (driven, outcome) := DriveStep(work, turns);
    var flagged := Flagged(driven, outcome);
    FlaggedGood(driven, outcome);
    RetireAllLeads(flagged);
    RetireAllComplete(flagged);
    var (emptied, ok) := RetireAll(flagged);
    StopGood(emptied);
    GrowsTwice(work.tables.registry, driven.tables.registry, emptied.tables.registry);
    GrowsTwice(work.tables.registry, emptied.tables.registry, StopStep(emptied).tables.registry);
    RunShape(work, turns);
    PaceOf(driven);
  }

  lemma PaceOf(work: Work)
    requires AtPace(work)
    ensures Paced(work.marks)
  {
  }

  /** The parts of a run. */
  lemma RunShape(work: Work, turns: seq<Turn>)
    ensures var (driven, outcome) := DriveStep(work, turns);
      var (emptied, ok) := RetireAll(Flagged(driven, outcome));
      && (outcome != Broken(CounterExhausted) ==> Flagged(driven, outcome) == driven)
      && StopStep(emptied).summary == emptied.summary && StopStep(emptied).marks == emptied.marks
      && StopStep(emptied).tables.live == emptied.tables.live
  {
    hide DriveStep, RetireAll;
  }

  /** The balance of complete counters: each connection ended or was abandoned, each byte was handed off or not. */
  lemma BooksBalance(work: Work)
    requires Good(work) && Booked(work)
    ensures var summary := work.summary;
      && summary.accepted == summary.ended + summary.abandoned + |work.tables.live|
      && summary.rawBytesRead == summary.rawBytesHandedOff + summary.undeliveredRawBytes
      && summary.undeliveredRecords <= summary.abandoned
      && summary.closedByRequest <= summary.ended + summary.abandoned
  {
    hide Tables.Agree, SumsOf, Count, Gone;
    SumsBalance(work.closed);
  }

  lemma NewGood(instance: nat, maxConnections: nat, turnSteps: nat)
    ensures var work := NewWork(instance, maxConnections, turnSteps);
      Good(work) && Booked(work) && AtPace(work) && !work.tables.registry.stopping
  {
    hide Good, Booked;
    NewAccounted(instance, maxConnections, turnSteps);
    NewBooked(instance, maxConnections, turnSteps);
  }

  lemma NewAccounted(instance: nat, maxConnections: nat, turnSteps: nat)
    ensures Good(NewWork(instance, maxConnections, turnSteps))
  {
    hide Tables.Agree, SumsOf, Count, Gone;
    NewAgree(instance, maxConnections, turnSteps);
    EmptyBooks();
    var work := NewWork(instance, maxConnections, turnSteps);
    assert work.tables.live.Keys == {};
  }

  lemma NewBooked(instance: nat, maxConnections: nat, turnSteps: nat)
    ensures Booked(NewWork(instance, maxConnections, turnSteps))
  {
    hide SumsOf, Count;
    EmptyBooks();
  }

  lemma EmptyBooks()
    ensures SumsOf([]) == Sums(0, 0, 0, 0, 0, 0, 0) && Gone([]) == {}
    ensures forall kind :: Count(kind, []) == 0
  {
  }

  lemma NewAgree(instance: nat, maxConnections: nat, turnSteps: nat)
    ensures NewWork(instance, maxConnections, turnSteps).tables.Agree()
  {
    var tables := NewWork(instance, maxConnections, turnSteps).tables;
    Controls.RunInv(instance, []);
    hide Controls.Inv;
    assert tables.registry.Known() == {};
    assert tables.ready.states.Keys == {} && tables.registry.entries.Keys == {};
  }
}
