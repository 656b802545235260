/** What every accept turn keeps, what it records, and the pace of the attempts over all turns. */
module ListenerLaws {
  import opened Wire
  import opened Orders
  import opened ReadySet
  import opened Driver
  import opened Turns
  import opened TurnLaws
  import Controls

  /** A clock that never runs backwards. */
  predicate Timed(now: nat, attempts: seq<Attempt>) {
    && (forall i :: 0 <= i < |attempts| ==> now <= attempts[i].at <= attempts[i].after)
    && (forall i, j :: 0 <= i < j < |attempts| ==> attempts[i].after <= attempts[j].at)
  }

  /** No attempt is made within 100 ms of an earlier pause. */
  predicate Paced(marks: seq<Mark>) {
    && (forall i, j :: 0 <= i < j < |marks| ==> marks[i].at <= marks[j].at)
    && (forall i, j :: 0 <= i < j < |marks| && marks[i].Paused? && marks[j].Tried? ==>
          marks[i].at + STOP_RECHECK <= marks[j].at)
  }

  /** Every pause is over by `clock`, but for the one that is still running. */
  predicate PacedUntil(marks: seq<Mark>, pausedAt: Option<nat>, clock: nat) {
    && Paced(marks)
    && (forall i :: 0 <= i < |marks| ==> marks[i].at <= clock)
    && (forall i :: 0 <= i < |marks| && marks[i].Paused? ==>
          marks[i].at + STOP_RECHECK <= clock || pausedAt == Some(marks[i].at))
  }

  predicate AtPace(work: Work) {
    PacedUntil(work.marks, work.pausedAt, work.clock)
  }

  /** Attempts with a pause between them are at least 100 ms apart. */
  lemma PausesSeparateAttempts(marks: seq<Mark>, first: nat, pause: nat, second: nat)
    requires Paced(marks) && first < pause < second < |marks|
    requires marks[first].Tried? && marks[pause].Paused? && marks[second].Tried?
    ensures marks[first].at + STOP_RECHECK <= marks[second].at
  {
    assert marks[first].at <= marks[pause].at;
  }

  lemma PauseOver(marks: seq<Mark>, pausedAt: Option<nat>, clock: nat, now: nat)
    requires PacedUntil(marks, pausedAt, clock) && clock <= now && AcceptDelay(pausedAt, now) == 0
    ensures PacedUntil(marks, None, now)
  {
    hide Paced;
  }

  lemma TriedPaced(marks: seq<Mark>, clock: nat, attempt: Attempt, fate: Fate)
    requires PacedUntil(marks, None, clock) && clock <= attempt.at <= attempt.after
    ensures PacedUntil(marks + [Tried(attempt.at, attempt.outcome, fate)], None, attempt.after)
  {
  }

  lemma PausePaced(marks: seq<Mark>, clock: nat, quota: bool)
    requires PacedUntil(marks, None, clock)
    ensures PacedUntil(marks + [Paused(clock, quota)], Some(clock), clock)
  {
  }

  // Admission.

  lemma AccountedAdmit(admitted: seq<Token>, closed: seq<Closed>, live: set<Token>, next: Token)
    requires Accounted(admitted, closed, live, next)
    ensures Accounted(admitted + [next], closed, live + {next}, next + 1)
  {
    hide Gone;
    var all := admitted + [next];
    assert forall token :: token in all <==> token in admitted || token == next;
    assert next in live ==> next in admitted;
    assert |live + {next}| == |live| + 1;
  }

  lemma AccountedSkip(admitted: seq<Token>, closed: seq<Closed>, live: set<Token>, next: Token)
    requires Accounted(admitted, closed, live, next)
    ensures Accounted(admitted, closed, live, next + 1)
  {
    hide Gone;
  }

  /** A fresh token in all tables, or the exact failure and what it leaves. */
  lemma AdmitLeads(work: Work, registers: bool)
    requires Good(work) && !work.tables.registry.stopping && |work.tables.live| < work.tables.maxConnections
    ensures var (next, r) := AdmitStep(work, registers);
      && Good(next) && Controls.Grows(work.tables.registry, next.tables.registry) && !next.tables.registry.stopping
      && |next.tables.live| == |work.tables.live| + |next.admitted| - |work.admitted|
      && (r.Ok? ==> r.value !in work.tables.live && next.admitted == work.admitted + [r.value])
      && (r == Err(CounterExhausted) ==> next.admitted == work.admitted + [work.tables.next])
      && (r.Err? && r.error != CounterExhausted ==> next.admitted == work.admitted && next.summary == work.summary)
      && next.tables.maxConnections == work.tables.maxConnections
  {
    hide Good, Controls.Grows, Admitted;
    NextFits(work);
    var token := work.tables.next;
    if token == U64_MAX {
      GrowsItself(work.tables.registry);
    } else if !registers {
      GrowsItself(work.tables.registry);
      SkippedGood(work);
    } else {
      var entered := work.(tables := Admitted(work.tables), admitted := work.admitted + [token]);
      EnteredGood(work);
      AdmittedShape(work.tables);
      SummaryGood(entered, work.summary.(accepted := work.summary.accepted + 1));
    }
  }

  lemma SkippedGood(work: Work)
    requires Good(work) && work.tables.next < U64_MAX
    ensures Good(work.(tables := work.tables.(next := work.tables.next + 1)))
  {
    hide Tables.Agree, Accounted;
    SkippedAgree(work.tables);
    AccountedSkip(work.admitted, work.closed, work.tables.live.Keys, work.tables.next);
  }

  lemma EnteredGood(work: Work)
    requires Good(work) && !work.tables.registry.stopping && work.tables.next < U64_MAX
    requires |work.tables.live| < work.tables.maxConnections
    ensures var next := work.(tables := Admitted(work.tables), admitted := work.admitted + [work.tables.next]);
      && Good(next) && Controls.Grows(work.tables.registry, next.tables.registry) && !next.tables.registry.stopping
      && |next.tables.live| == |work.tables.live| + 1 && work.tables.next !in work.tables.live
  {
    hide Tables.Agree, Accounted, Controls.Grows, Admitted;
    AgreeFacts(work.tables);
    AdmittedAgree(work.tables);
    AccountedAdmit(work.admitted, work.closed, work.tables.live.Keys, work.tables.next);
    AdmittedShape(work.tables);
  }

  /** The counters of admissions and of the listener are no part of what makes a state good. */
  lemma SummaryGood(work: Work, summary: RunSummary)
    requires Good(work)
    requires summary.rawBytesRead == work.summary.rawBytesRead
    requires summary.rawBytesHandedOff == work.summary.rawBytesHandedOff
    ensures Good(work.(summary := summary))
  {
    hide Tables.Agree, Accounted;
  }

  lemma AdmittedShape(tables: Tables)
    ensures var after := Admitted(tables);
      && after.live == tables.live[tables.next := NO_PROGRESS] && after.live.Keys == tables.live.Keys + {tables.next}
      && after.next == tables.next + 1 && after.maxConnections == tables.maxConnections
  {
    hide Insert, Controls.Register;
  }

  // Attempts.

  /** Unless a counter fails, an attempt adds one to what it counts. */
  lemma MarksBooked(summary: RunSummary, admitted: seq<Token>, marks: seq<Mark>, mark: Mark, entered: seq<Token>)
    requires BooksOpened(summary, admitted, marks)
    requires |entered| == One(Counts(Entries, mark))
    ensures BooksOpened(
      summary.(accepted := summary.accepted + One(Counts(Entries, mark)),
               refused := summary.refused + One(Counts(Refusals, mark)),
               transientAcceptErrors := summary.transientAcceptErrors + One(Counts(Retries, mark)),
               resourcePauseEntries := summary.resourcePauseEntries + One(Counts(Shortages, mark)),
               retryQuotaBackoffs := summary.retryQuotaBackoffs + One(Counts(QuotaPauses, mark))),
      admitted + entered, marks + [mark])
  {
    CountMore(Entries, marks, mark);
    CountMore(Refusals, marks, mark);
    CountMore(Retries, marks, mark);
    CountMore(Shortages, marks, mark);
    CountMore(QuotaPauses, marks, mark);
    hide Count, Counts;
  }

  /** What an attempt records and how it leaves the listener. */
  predicate Recorded(before: Work, after: Work, attempt: Attempt, more: Result<bool, Failure>) {
    var tried := |before.marks|;
    && |after.marks| == tried + 1 + One(attempt.outcome.Pause? && more.Ok?)
    && after.marks[..tried] == before.marks
    && after.marks[tried].Tried? && after.marks[tried].at == attempt.at
    && after.marks[tried].outcome == attempt.outcome
    && (attempt.outcome.Pause? && more.Ok? ==> after.marks[tried + 1] == Paused(attempt.after, false))
    && after.pausedAt == (if attempt.outcome.Pause? && more.Ok? then Some(attempt.after) else before.pausedAt)
    && after.clock == attempt.after
    && after.listenerReady == (before.listenerReady && !attempt.outcome.Drained?)
    && (more.Ok? ==> more.value == (attempt.outcome.Connected? || attempt.outcome.Retry?))
    && (attempt.outcome.Fatal? ==> more == Err(Io))
    && (more == Err(Io) ==> Faulty(attempt.outcome))
    && (more == Err(TokenExhausted) ==> attempt.outcome.Connected?)
    && after.turnSteps == before.turnSteps && after.closed == before.closed
  }

  lemma AcceptRecords(work: Work, attempt: Attempt)
    ensures Recorded(work, AcceptStep(work, attempt).0, attempt, AcceptStep(work, attempt).1)
  {
    hide *;
    if attempt.outcome.Connected? {
      EntryRecords(work, attempt);
    } else {
      MissRecords(work, attempt);
    }
  }

  lemma EntryRecords(work: Work, attempt: Attempt)
    requires attempt.outcome.Connected?
    ensures Recorded(work, AcceptStep(work, attempt).0, attempt, AcceptStep(work, attempt).1)
  {
    hide Admitted;
  }

  lemma MissRecords(work: Work, attempt: Attempt)
    requires !attempt.outcome.Connected?
    ensures Recorded(work, AcceptStep(work, attempt).0, attempt, AcceptStep(work, attempt).1)
  {
    hide AdmitStep;
  }

  lemma AcceptClock(work: Work, attempt: Attempt)
    ensures AcceptStep(work, attempt).0.clock == attempt.after
  {
    AcceptRecords(work, attempt);
    hide AcceptStep;
  }

  lemma AcceptPaced(work: Work, attempt: Attempt)
    requires AtPace(work) && work.pausedAt == None && work.clock <= attempt.at <= attempt.after
    ensures AtPace(AcceptStep(work, attempt).0)
  {
    hide PacedUntil, Admitted;
    TriedPaced(work.marks, work.clock, attempt, Entered);
    TriedPaced(work.marks, work.clock, attempt, TurnedAway);
    TriedPaced(work.marks, work.clock, attempt, NoEntry);
    var tried := work.marks + [Tried(attempt.at, attempt.outcome, NoEntry)];
    PausePaced(tried, attempt.after, false);
  }

  lemma AcceptGood(work: Work, attempt: Attempt)
    requires Good(work) && !work.tables.registry.stopping && |work.tables.live| <= work.tables.maxConnections
    ensures var (next, more) := AcceptStep(work, attempt);
      && Good(next) && Controls.Grows(work.tables.registry, next.tables.registry) && !next.tables.registry.stopping
      && |next.tables.live| <= next.tables.maxConnections == work.tables.maxConnections
  {
    hide Tables.Agree, Accounted, Controls.Grows, Admitted, AdmitStep;
    GrowsItself(work.tables.registry);
    if attempt.outcome.Connected? && |work.tables.live| < work.tables.maxConnections {
      AdmitLeads(work, attempt.outcome.registers);
    }
  }

  /** Unless a counter fails, the books count this attempt for what it was. */
  lemma AcceptBooked(work: Work, attempt: Attempt)
    requires Booked(work) && AcceptStep(work, attempt).1 != Err(CounterExhausted)
    ensures Booked(AcceptStep(work, attempt).0)
  {
    hide SumsOf, Count, AcceptStep, BooksOpened, BooksClosed;
    AcceptRecords(work, attempt);
    AcceptShape(work, attempt);
    var (next, more) := AcceptStep(work, attempt);
    var tried := next.marks[|work.marks|];
    assert next.marks[..|work.marks| + 1] == work.marks + [tried];
    var entered := if next.admitted == work.admitted then [] else [work.tables.next];
    MarksBooked(work.summary, work.admitted, work.marks, tried, entered);
    assert work.admitted + entered == next.admitted;
    SummaryClosed(work.summary, next.summary, work.closed);
    if attempt.outcome.Pause? && more.Ok? {
      var all, middle := work.marks + [tried], next.summary.(resourcePauseEntries := work.summary.resourcePauseEntries);
      MarksBooked(middle, work.admitted + entered, all, Paused(attempt.after, false), []);
      assert work.admitted + entered + [] == next.admitted;
      assert next.marks == all + [Paused(attempt.after, false)];
    } else {
      assert next.marks == work.marks + [tried];
    }
  }

  /** The summary and the admissions after an attempt. */
  lemma AcceptShape(work: Work, attempt: Attempt)
    ensures var next := AcceptStep(work, attempt).0;
      && |next.marks| > |work.marks|
      && (next.admitted == work.admitted || next.admitted == work.admitted + [work.tables.next])
    ensures var (next, more) := AcceptStep(work, attempt);
      var tried := next.marks[|work.marks|];
      more != Err(CounterExhausted) ==>
        && (Counts(Entries, tried) <==> next.admitted != work.admitted)
        && next.summary == work.summary.(
             accepted := work.summary.accepted + One(Counts(Entries, tried)),
             refused := work.summary.refused + One(Counts(Refusals, tried)),
             transientAcceptErrors := work.summary.transientAcceptErrors + One(Counts(Retries, tried)),
             resourcePauseEntries := work.summary.resourcePauseEntries + One(attempt.outcome.Pause? && more.Ok?))
  {
    hide Admitted, AdmitStep;
    match attempt.outcome
    case Connected(registers) =>
      AdmitShape(work, registers);
      if |work.tables.live| != work.tables.maxConnections {
        var (next, admitted) := AdmitStep(work, registers);
        assert AcceptStep(work, attempt).0.summary == next.summary;
        assert AcceptStep(work, attempt).0.admitted == next.admitted;
      }
    case Drained =>
    case Retry =>
    case Pause =>
    case Fatal =>
  }

  lemma AdmitShape(work: Work, registers: bool)
    ensures var (next, admitted) := AdmitStep(work, registers);
      && next.marks == work.marks
      && (next.admitted == work.admitted || next.admitted == work.admitted + [work.tables.next])
      && (admitted.Ok? ==> next.admitted != work.admitted)
      && (admitted.Err? && admitted.error != CounterExhausted ==> next.admitted == work.admitted)
      && next.summary == work.summary.(accepted := work.summary.accepted + One(admitted.Ok?))
  {
    hide Admitted;
  }

  lemma SummaryClosed(before: RunSummary, after: RunSummary, closed: seq<Closed>)
    requires after == before.(accepted := after.accepted, refused := after.refused,
                              transientAcceptErrors := after.transientAcceptErrors,
                              resourcePauseEntries := after.resourcePauseEntries,
                              retryQuotaBackoffs := after.retryQuotaBackoffs)
    ensures BooksClosed(before, closed) == BooksClosed(after, closed)
  {
    hide SumsOf;
  }

  lemma NextFits(work: Work)
    requires Good(work)
    ensures work.tables.next <= U64_MAX && |work.tables.live| <= work.tables.maxConnections
  {
    AgreeFacts(work.tables);
    BoundedLive(work.tables);
  }

  // Turns.

  predicate EndsInPause(attempts: seq<Attempt>, tries: nat)
    requires tries <= |attempts|
  {
    tries > 0 && attempts[tries - 1].outcome.Pause?
  }

  /** The quota is used up by errors worth a retry. */
  predicate OnlyRetries(attempts: seq<Attempt>, tries: nat, quota: nat)
    requires tries <= |attempts|
  {
    tries == quota && forall i :: 0 <= i < tries ==> attempts[i].outcome.Retry?
  }

  predicate TriedAll(marks: seq<Mark>, first: nat, attempts: seq<Attempt>, tries: nat)
    requires first + tries <= |marks| && tries <= |attempts|
  {
    forall i :: first <= i < first + tries ==>
      && marks[i].Tried? && marks[i].at == attempts[i - first].at && marks[i].outcome == attempts[i - first].outcome
  }

  /**
   * The history of a turn of `tries` attempts: each of them in order, and one pause after the last exactly when the
   * turn succeeded and met a lack of resources or nothing but retries.
   */
  predicate TurnRecorded(before: Work, after: Work, attempts: seq<Attempt>, tries: nat, quota: nat, progressed: bool,
                         r: Result<(), Failure>)
  {
    && tries <= quota && tries <= |attempts|
    && var first := |before.marks|;
       var paused := r.Ok? && (EndsInPause(attempts, tries) || (!progressed && OnlyRetries(attempts, tries, quota)));
    && |after.marks| == first + tries + One(paused)
    && after.marks[..first] == before.marks
    && TriedAll(after.marks, first, attempts, tries)
    && after.clock == (if tries == 0 then before.clock else attempts[tries - 1].after)
    && after.pausedAt == (if paused then Some(after.clock) else None)
    && (paused ==> after.marks[first + tries] == Paused(after.clock, !EndsInPause(attempts, tries)))
    && (after.listenerReady <==> before.listenerReady && !(tries > 0 && attempts[tries - 1].outcome.Drained?))
    && (forall i :: 0 <= i < tries - 1 ==> attempts[i].outcome.Connected? || attempts[i].outcome.Retry?)
    && (tries > 0 && attempts[tries - 1].outcome.Fatal? ==> r == Err(Io))
    && (r == Err(Io) ==> tries > 0 && Faulty(attempts[tries - 1].outcome))
    && (r == Err(TokenExhausted) ==> tries > 0 && attempts[tries - 1].outcome.Connected?)
    && (tries < quota && tries < |attempts| ==> tries > 0 && Ends(attempts[tries - 1].outcome, r))
    && after.turnSteps == before.turnSteps && after.closed == before.closed
  }

  /** The outcomes that make an accept turn fail: of the accept itself, or of the registration. */
  predicate Faulty(outcome: AcceptOutcome) {
    outcome == Fatal || outcome == Connected(false)
  }

  /** Only these make a turn end with attempts left in its quota. */
  predicate Ends(outcome: AcceptOutcome, r: Result<(), Failure>) {
    r.Err? || outcome.Drained? || outcome.Pause?
  }

  lemma {:induction false} AcceptsRecord(work: Work, attempts: seq<Attempt>, quota: nat, progressed: bool)
    requires work.pausedAt == None
    ensures var (after, r, tries) := AcceptsFrom(work, attempts, quota, progressed);
      TurnRecorded(work, after, attempts, tries, quota, progressed, r)
    decreases |attempts|
  {
    hide AcceptStep;
    if quota > 0 && attempts != [] {
      AcceptRecords(work, attempts[0]);
      var (next, more) := AcceptStep(work, attempts[0]);
      if more == Ok(true) {
        var went := progressed || attempts[0].outcome.Connected?;
        AcceptsRecord(next, attempts[1..], quota - 1, went);
        var (after, r, tries) := AcceptsFrom(next, attempts[1..], quota - 1, went);
        OneRecorded(work, next, after, attempts, tries, quota, progressed, r);
      }
    }
  }

  /** One attempt that goes on, and the rest of its turn. */
  lemma OneRecorded(work: Work, next: Work, after: Work, attempts: seq<Attempt>, tries: nat, quota: nat,
                    progressed: bool, r: Result<(), Failure>)
    requires attempts != [] && quota > 0 && Recorded(work, next, attempts[0], Ok(true)) && work.pausedAt == None
    requires TurnRecorded(next, after, attempts[1..], tries, quota - 1, progressed || attempts[0].outcome.Connected?, r)
    ensures TurnRecorded(work, after, attempts, tries + 1, quota, progressed, r)
  {
    var first := |work.marks|;
    assert after.marks[..first] == after.marks[..first + 1][..first] == work.marks;
    assert after.marks[first] == after.marks[..first + 1][first];
    assert TriedAll(after.marks, first, attempts, tries + 1);
    assert forall i :: 0 <= i < tries ==> attempts[1..][i] == attempts[i + 1];
    assert OnlyRetries(attempts, tries + 1, quota) <==>
      attempts[0].outcome.Retry? && OnlyRetries(attempts[1..], tries, quota - 1);
    assert EndsInPause(attempts, tries + 1) <==> EndsInPause(attempts[1..], tries);
    assert tries > 0 ==> attempts[1..][tries - 1] == attempts[tries];
    forall i | 0 <= i < tries
      ensures attempts[i].outcome.Connected? || attempts[i].outcome.Retry?
    {
      if i > 0 { assert attempts[1..][i - 1] == attempts[i]; }
    }
  }

  lemma {:induction false} AcceptsGood(work: Work, attempts: seq<Attempt>, quota: nat, progressed: bool)
    requires Good(work) && !work.tables.registry.stopping
    ensures var (after, r, tries) := AcceptsFrom(work, attempts, quota, progressed);
      && Good(after) && Controls.Grows(work.tables.registry, after.tables.registry) && !after.tables.registry.stopping
      && after.tables.maxConnections == work.tables.maxConnections
      && (Booked(work) && r != Err(CounterExhausted) ==> Booked(after))
    decreases |attempts|
  {
    hide Good, Controls.Grows, Booked, AcceptStep;
    GrowsItself(work.tables.registry);
    if quota == 0 {
      QuotaGood(work, progressed);
    } else if attempts != [] {
      NextFits(work);
      AcceptGood(work, attempts[0]);
      var (next, more) := AcceptStep(work, attempts[0]);
      if Booked(work) && more != Err(CounterExhausted) {
        AcceptBooked(work, attempts[0]);
      }
      if more == Ok(true) {
        var went := progressed || attempts[0].outcome.Connected?;
        AcceptsGood(next, attempts[1..], quota - 1, went);
        GrowsTwice(work.tables.registry, next.tables.registry,
                   AcceptsFrom(next, attempts[1..], quota - 1, went).0.tables.registry);
      }
    }
  }

  lemma QuotaGood(work: Work, progressed: bool)
    requires Good(work)
    ensures var (after, r) := QuotaUsed(work, progressed);
      && Good(after) && after.tables == work.tables
      && (Booked(work) && r != Err(CounterExhausted) ==> Booked(after))
  {
    hide Tables.Agree, Accounted, SumsOf, Count, BooksOpened;
    if Booked(work) {
      MarksBooked(work.summary, work.admitted, work.marks, Paused(work.clock, true), []);
      assert work.admitted + [] == work.admitted;
    }
  }

  lemma {:induction false} AcceptsPaced(work: Work, attempts: seq<Attempt>, quota: nat, progressed: bool)
    requires AtPace(work) && work.pausedAt == None && Timed(work.clock, attempts)
    ensures AtPace(AcceptsFrom(work, attempts, quota, progressed).0)
    decreases |attempts|
  {
    hide PacedUntil, AcceptStep;
    if quota == 0 {
      PausePaced(work.marks, work.clock, true);
    } else if attempts != [] {
      AcceptPaced(work, attempts[0]);
      AcceptRecords(work, attempts[0]);
      var (next, more) := AcceptStep(work, attempts[0]);
      if more == Ok(true) {
        assert Timed(next.clock, attempts[1..]);
        AcceptsPaced(next, attempts[1..], quota - 1, progressed || attempts[0].outcome.Connected?);
      }
    }
  }

  /** 100 ms have not passed since the pause began. */
  predicate StillPaused(pausedAt: Option<nat>, now: nat) {
    pausedAt.Some? && now < pausedAt.value + STOP_RECHECK
  }

  /**
   * What an accept turn records: nothing during a pause or without readiness, else its attempts and its pause. A turn
   * stops short of its quota only for a reason that its last attempt gives, or at the stop that ends its attempts.
   */
  lemma AcceptTurnRecords(work: Work, now: nat, attempts: seq<Attempt>)
    ensures var (after, r, tries) := AcceptTurn(work, now, attempts);
      if !work.listenerReady || StillPaused(work.pausedAt, now) then after == work && tries == 0 && r.Ok?
      else
        && tries <= work.turnSteps && tries <= EVENT_BATCH && tries <= |attempts|
        && (tries == work.turnSteps || tries == EVENT_BATCH || tries == |attempts|
            || (tries > 0 && Ends(attempts[tries - 1].outcome, r)))
        && TurnRecorded(work.(pausedAt := None, clock := now), after, attempts, tries, Quota(work), false, r)
  {
    hide AcceptsFrom;
    AcceptsRecord(work.(pausedAt := None, clock := now), attempts, Quota(work), false);
  }

  /** An accept turn keeps tables, books, limit and pace, and forgets no readiness but that of a drained listener. */
  lemma AcceptTurnLeads(work: Work, now: nat, attempts: seq<Attempt>)
    requires Good(work) && !work.tables.registry.stopping && AtPace(work)
    requires work.clock <= now && Timed(now, attempts)
    ensures var (after, r, tries) := AcceptTurn(work, now, attempts);
      && Leads(work, after, r != Err(CounterExhausted)) && AtPace(after)
      && |after.tables.live| <= after.tables.maxConnections
      && (after.clock == work.clock || after.clock == now
          || exists i :: 0 <= i < |attempts| && after.clock == attempts[i].after)
  {
    hide Good, Booked, Controls.Grows, PacedUntil, AcceptsFrom;
    GrowsItself(work.tables.registry);
    NextFits(work);
    if work.listenerReady && AcceptDelay(work.pausedAt, now) == 0 {
      var start := work.(pausedAt := None, clock := now);
      PauseOver(work.marks, work.pausedAt, work.clock, now);
      StartGood(work, now);
      AcceptsGood(start, attempts, Quota(work), false);
      AcceptsPaced(start, attempts, Quota(work), false);
      AcceptsRecord(start, attempts, Quota(work), false);
      NextFits(AcceptTurn(work, now, attempts).0);
    }
  }

  lemma StartGood(work: Work, now: nat)
    requires Good(work)
    ensures Good(work.(pausedAt := None, clock := now))
    ensures Booked(work) ==> Booked(work.(pausedAt := None, clock := now))
  {
    hide Tables.Agree, Accounted, SumsOf, Count;
  }
}
