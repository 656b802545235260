/** The worker object: each method changes its fields in place and equals one step of the loop on values. */
module WorkerLoop {
  import opened Wire
  import opened Records
  import opened Orders
  import opened ReadySet
  import opened Driver
  import opened Turns
  import opened TurnLaws
  import EntryLaws
  import ListenerLaws
  import RunLaws
  import Controls
  import Maps

  /** A round whose first polls were those of `polled`. */
  function After(polled: seq<Token>, rest: (Work, bool, seq<Token>)): (Work, bool, seq<Token>) {
    (rest.0, rest.1, polled + rest.2)
  }

  lemma PollsNone(work: Work, polls: seq<PollRun>, budget: nat, polled: seq<Token>)
    requires budget == 0 || polls == []
    ensures After(polled, PollsFrom(work, polls, budget)) == (work, true, polled)
  {
    assert polled + [] == polled;
  }

  /** The first poll of a round, and the round that follows it. */
  lemma PollsOne(work: Work, polls: seq<PollRun>, budget: nat, polled: seq<Token>)
    requires budget > 0 && polls != []
    ensures var (taken, token) := Take(work.tables.ready);
      var all := After(polled, PollsFrom(work, polls, budget));
      if token.None? then all == (work, true, polled)
      else
        var (next, ok) := PollStep(work.(tables := work.tables.(ready := taken)), token.value, polls[0]);
        all == if ok then After(polled + [token.value], PollsFrom(next, polls[1..], budget - 1))
               else (next, false, polled + [token.value])
  {
    hide PollStep, Take;
    assert polled + [] == polled;
    var (taken, token) := Take(work.tables.ready);
    if token.Some? {
      var next := PollStep(work.(tables := work.tables.(ready := taken)), token.value, polls[0]).0;
      var rest := PollsFrom(next, polls[1..], budget - 1).2;
      assert polled + ([token.value] + rest) == polled + [token.value] + rest;
    }
  }

  /** A turn whose first attempts were made. */
  function AfterTries(tries: nat, rest: (Work, Result<(), Failure>, nat)): (Work, Result<(), Failure>, nat) {
    (rest.0, rest.1, tries + rest.2)
  }

  lemma AcceptsNone(work: Work, attempts: seq<Attempt>, quota: nat, progressed: bool, tries: nat)
    ensures quota > 0 && attempts == [] ==>
      AfterTries(tries, AcceptsFrom(work, attempts, quota, progressed)) == (work, Ok(()), tries)
    ensures quota == 0 ==>
      AfterTries(tries, AcceptsFrom(work, attempts, quota, progressed))
        == (QuotaUsed(work, progressed).0, QuotaUsed(work, progressed).1, tries)
  {
  }

  lemma AcceptsOne(work: Work, attempts: seq<Attempt>, quota: nat, progressed: bool, tries: nat)
    requires quota > 0 && attempts != []
    ensures var (next, more) := AcceptStep(work, attempts[0]);
      AfterTries(tries, AcceptsFrom(work, attempts, quota, progressed)) ==
        match more
        case Err(failure) => (next, Err(failure), tries + 1)
        case Ok(more) =>
          if !more then (next, Ok(()), tries + 1)
          else AfterTries(tries + 1, AcceptsFrom(next, attempts[1..], quota - 1,
                                                 progressed || attempts[0].outcome.Connected?))
  {
    hide AcceptStep;
  }

  class Worker {
    const instance: nat
    const maxConnections: nat
    const turnSteps: nat
    var ready: Ready
    var registry: Controls.Registry
    var live: map<Token, Progress>
    var next: nat
    var summary: RunSummary
    var listenerReady: bool
    var pausedAt: Option<nat>
    /** The last clock reading, and what was tried, admitted and closed. */
    ghost var clock: nat
    ghost var marks: seq<Mark>
    ghost var admitted: seq<Token>
    ghost var closed: seq<Closed>

    ghost function Value(): Work
      reads this
    {
      Work(Tables(instance, maxConnections, ready, registry, live, next), turnSteps, summary, listenerReady, pausedAt,
           clock, marks, admitted, closed)
    }

    ghost predicate Valid()
      reads this
    {
      Good(Value())
    }

    constructor (instance: nat, maxConnections: nat, turnSteps: nat)
      ensures Value() == NewWork(instance, maxConnections, turnSteps)
      ensures Valid() && Booked(Value()) && ListenerLaws.AtPace(Value()) && !registry.stopping
    {
      hide Good, Booked, ListenerLaws.AtPace;
      this.instance, this.maxConnections, this.turnSteps := instance, maxConnections, turnSteps;
      ready := Ready(map[], [], [], [], maxConnections);
      registry, live, next, summary := Controls.Open(instance), map[], FIRST_CONNECTION, NEW_SUMMARY;
      listenerReady, pausedAt := true, None;
      clock, marks, admitted, closed := 0, [], [], [];
      new;
      RunLaws.NewGood(instance, maxConnections, turnSteps);
    }

    /** Absorbs the progress of a retired task; its internal check never fails. */
    method Absorb(progress: Progress) returns (ok: bool)
      requires summary.Solvent() && progress.Sane()
      modifies `summary
      ensures (summary, ok) == AbsorbStep(old(summary), progress)
      ensures ok ==> MergeProgress(old(summary), progress) == Some((summary, true))
    {
      var (merged, complete) := MergeProgress(summary, progress).value;
      summary := if complete then merged else merged.(countersComplete := false);
      ok := complete;
    }

    /** The summary's part of a retirement. */
    method CloseBooks(progress: Progress, result: Controls.CloseResult) returns (ok: bool)
      requires summary.Solvent() && progress.Sane()
      modifies `summary
      ensures (summary, ok) == CloseStep(old(summary), progress, result)
    {
      if result.RetiredByRequest? {
        if summary.closedByRequest == U64_MAX {
          return false;
        }
        summary := summary.(closedByRequest := summary.closedByRequest + 1);
      }
      ok := Absorb(progress);
    }

    /** Retires one live connection everywhere, completes its ticket and absorbs its progress. */
    method RetireWith(token: Token, result: Controls.CloseResult) returns (ok: bool)
      requires Valid() && token in live
      modifies `ready, `registry, `live, `summary, `closed
      ensures (Value(), ok) == RetireStep(old(Value()), token, result)
    {
      hide Good, Retire, CloseStep, Controls.Settle, Controls.Remove, RunSummary.Solvent, Progress.Sane;
      RunLaws.GoodParts(Value(), token);
      var progress, id := live[token], ConnectionId(instance, token);
      ready := Retire(ready, token).0;
      live := live - {token};
      registry := Controls.Settle(Controls.Remove(registry, id, result), id);
      closed := closed + [Closed(token, progress, result)];
      ok := CloseBooks(progress, result);
    }

    /** Retires the live connections whose close was requested, in the order of their tokens, until a counter fails. */
    method RetireRequested() returns (ok: bool)
      requires Valid()
      modifies `ready, `registry, `live, `summary, `closed
      ensures (Value(), ok) == RetireAsked(old(Value()))
    {
      hide Good, RetireStep, Asked, Booked, Controls.Grows;
      var tokens := AskedTokens(Tables(instance, maxConnections, ready, registry, live, next));
      ghost var all := tokens;
      assert forall token <- tokens :: token in live && Asked(Value().tables, token);
      while tokens != []
        invariant Valid() && Distinct(tokens)
        invariant forall token <- tokens :: token in live && Asked(Value().tables, token)
        invariant RetireEach(old(Value()), all, Controls.RetiredByRequest)
               == RetireEach(Value(), tokens, Controls.RetiredByRequest)
        decreases |tokens|
      {
        ghost var before := Value();
        RetireStepGood(before, tokens[0], Controls.RetiredByRequest);
        OthersAsked(before, tokens[0], Controls.RetiredByRequest);
        ok := RetireWith(tokens[0], Controls.RetiredByRequest);
        if !ok {
          return false;
        }
        assert forall token <- tokens[1..] :: token in tokens && token != tokens[0];
        tokens := tokens[1..];
      }
      ok := true;
    }

    /** Shutdown retires every live connection in order and then completes every ticket. */
    method Shutdown() returns (ok: bool)
      requires Valid()
      modifies `ready, `registry, `live, `summary, `closed
      ensures Value() == StopStep(RetireAll(old(Value())).0) && ok == RetireAll(old(Value())).1
    {
      hide Good, RetireStep, Booked, Controls.Grows;
      ok := true;
      while live != map[]
        invariant Valid()
        invariant RetireAll(old(Value())).0 == RetireAll(Value()).0
        invariant RetireAll(old(Value())).1 == (ok && RetireAll(Value()).1)
        decreases |live|
      {
        var token := Least(live.Keys);
        Maps.OneLess(live, token);
        RetireStepGood(Value(), token, Controls.ReceiverStopped);
        var absorbed := RetireWith(token, Controls.ReceiverStopped);
        ok := ok && absorbed;
      }
      registry := Controls.StopAll(registry);
    }

    /** A caller on another thread asks for one connection to be closed. */
    method CloseCall(id: ConnectionId) returns (error: Option<Controls.CloseError>)
      modifies `registry
      ensures (registry, error) == Controls.Close(old(registry), id) && Value() == CallStep(old(Value()), id)
    {
      var (after, refused) := Controls.Close(registry, id);
      registry := after;
      error := refused;
    }

    /** Calls of other threads that arrive before the worker looks at the marks. */
    method CloseCalls(ids: seq<ConnectionId>)
      modifies `registry
      ensures Value() == CallsStep(old(Value()), ids)
    {
      hide CallStep;
      for i := 0 to |ids|
        invariant CallsStep(old(Value()), ids) == CallsStep(Value(), ids[i..])
      {
        assert ids[i..][1..] == ids[i + 1..];
        var _ := CloseCall(ids[i]);
      }
    }

    /** Credit that was published gives the head of each order a turn. */
    method ResumeCredit(slotCredit: bool, byteCredit: bool)
      modifies `ready
      ensures Value() == CreditStep(old(Value()), slotCredit, byteCredit)
    {
      if slotCredit {
        ready := ResumeHead(ready, Slots).0;
      }
      if byteCredit {
        ready := ResumeHead(ready, Bytes).0;
      }
    }

    /** One poll of a task that was just taken: its blocks, the check of its counters, and how it ends. */
    method PollOne(token: Token, poll: PollRun) returns (ok: bool)
      requires Valid() && token in live && poll.progress.Sane()
      modifies `ready, `registry, `live, `summary, `closed
      ensures (Value(), ok) == PollStep(old(Value()), token, poll)
    {
      hide Good, Tables.Agree, RetireStep, Blocks, Park, Enqueue, Progress.Sane, NoneStarts, Leads;
      GoodAgree(Value());
      DuringPollAgree(Value().tables, token, poll);
      DuringLeads(Value(), token, poll);
      ghost var during := Value().(tables := DuringPoll(Value().tables, token, poll));
      GoodOf(Value(), during);
      ready, live := Blocks(ready, token, poll.blocks), live[token := poll.progress];
      assert Value() == during;
      if poll.progress.counterOverflow {
        return false;
      }
      match poll.end {
        case Finished =>
          ok := RetireWith(token, Controls.ConnectionEnded);
        case Slept(reason) =>
          ready := Park(ready, token, reason);
          ok := true;
        case Yielded =>
          ready := Enqueue(ready, token).0;
          ok := true;
      }
    }

    /** One bounded round of polls of the run queue. */
    method RunReady(polls: seq<PollRun>) returns (ok: bool, polled: seq<Token>)
      requires Valid() && forall poll <- polls :: poll.progress.Sane()
      modifies `ready, `registry, `live, `summary, `closed
      ensures (Value(), ok, polled) == PollsFrom(old(Value()), polls, TURN_BATCH)
      ensures forall token <- polled :: token in old(live)
      ensures ok ==> AllSettled(ready, polled)
    {
      hide Good, Take, PollStep, PollsFrom, Progress.Sane, AllSettled, NoneStarts, Leads, Booked, SameListener;
      PollsLead(Value(), polls, TURN_BATCH);
      NoneSettled(ready);
      PollsSettleAll(Value(), polls, TURN_BATCH, []);
      ghost var all := PollsFrom(Value(), polls, TURN_BATCH);
      assert [] + all.2 == all.2;
      var count := 0;
      polled := [];
      while count < TURN_BATCH && count < |polls|
        invariant Valid() && |polled| == count <= TURN_BATCH && count <= |polls|
        invariant all == After(polled, PollsFrom(Value(), polls[count..], TURN_BATCH - count))
      {
        ghost var before := Value();
        TakeLeads(before);
        PollsOne(before, polls[count..], TURN_BATCH - count, polled);
        assert polls[count..][1..] == polls[count + 1..];
        var (taken, token) := Take(ready);
        if token.None? {
          return true, polled;
        }
        ready := taken;
        ghost var running := Value();
        GoodOf(before, running);
        var fine := PollOne(token.value, polls[count]);
        PollLeads(running, token.value, polls[count]);
        polled := polled + [token.value];
        if !fine {
          return false, polled;
        }
        GoodOf(running, Value());
        count := count + 1;
      }
      PollsNone(Value(), polls[count..], TURN_BATCH - count, polled);
      ok := true;
    }

    /** Events of one system poll. */
    method Dispatch(events: seq<Token>)
      modifies `ready, `listenerReady
      ensures Value() == DispatchStep(old(Value()), events)
      ensures Dispatched(old(ready), ready, events)
    {
      hide IoReady, Dispatched;
      NothingDispatched(ready);
      DispatchExact(Value(), events, ready, []);
      assert [] + events == events;
      for i := 0 to |events|
        invariant DispatchStep(old(Value()), events) == DispatchStep(Value(), events[i..])
      {
        assert events[i..][1..] == events[i + 1..];
        if events[i] == LISTENER {
          listenerReady := true;
        } else if events[i] != CONTROL {
          ready := IoReady(ready, events[i]);
        }
      }
    }

    /** Admits one connection under a token that was never used, in all three tables at once. */
    method Admit(registers: bool) returns (r: Result<Token, Failure>)
      requires Valid() && !registry.stopping && |live| < maxConnections
      modifies `ready, `registry, `live, `next, `summary, `admitted
      ensures (Value(), r) == AdmitStep(old(Value()), registers)
    {
      hide Good, Insert, Controls.Register;
      if next == U64_MAX {
        return Err(TokenExhausted);
      }
      var token := next;
      next := next + 1;
      if !registers {
        return Err(Io);
      }
      ready := Insert(ready, token);
      live := live[token := NO_PROGRESS];
      registry := Controls.Register(registry, ConnectionId(instance, token));
      admitted := admitted + [token];
      if summary.accepted == U64_MAX {
        return Err(CounterExhausted);
      }
      summary := summary.(accepted := summary.accepted + 1);
      r := Ok(token);
    }

    /** One attempt. `Ok(false)` ends the turn: the listener is drained, or the system is short of resources. */
    method AcceptOne(attempt: Attempt) returns (more: Result<bool, Failure>)
      requires Valid() && !registry.stopping
      modifies this
      ensures (Value(), more) == AcceptStep(old(Value()), attempt)
      ensures ListenerLaws.Recorded(old(Value()), Value(), attempt, more)
      ensures EntryLaws.Fated(old(Value()), Value(), attempt, more)
    {
      hide Good, AdmitStep, EntryLaws.Fated, ListenerLaws.Recorded;
      ListenerLaws.AcceptRecords(Value(), attempt);
      EntryLaws.AcceptFates(Value(), attempt);
      if attempt.outcome.Connected? {
        more := Enter(attempt);
      } else {
        more := Miss(attempt);
      }
    }

    /** A connection was accepted: it is refused at the limit, and else admitted. */
    method Enter(attempt: Attempt) returns (more: Result<bool, Failure>)
      requires Valid() && !registry.stopping && attempt.outcome.Connected?
      modifies this
      ensures (Value(), more) == AcceptStep(old(Value()), attempt)
      ensures |marks| > |old(marks)| && marks[|old(marks)|].Tried?
      ensures marks[|old(marks)|].fate.TurnedAway? <==> |old(live)| == maxConnections
      ensures EntryLaws.Fated(old(Value()), Value(), attempt, more)
    {
      hide Good, AdmitStep, EntryLaws.AtWork, EntryLaws.Enters, EntryLaws.StaysAs;
      EntryLaws.AcceptFates(Value(), attempt);
      ListenerLaws.NextFits(Value());
      ghost var fate := TurnedAway;
      if |live| == maxConnections {
        if summary.refused == U64_MAX {
          more := Err(CounterExhausted);
        } else {
          summary := summary.(refused := summary.refused + 1);
          more := Ok(true);
        }
      } else {
        ghost var before := admitted;
        var entered := Admit(attempt.outcome.registers);
        fate := if admitted != before then Entered else NoEntry;
        more := if entered.Ok? then Ok(true) else Err(entered.error);
      }
      marks, clock := marks + [Tried(attempt.at, attempt.outcome, fate)], attempt.after;
    }

    /** Nothing was accepted. */
    method Miss(attempt: Attempt) returns (more: Result<bool, Failure>)
      requires !attempt.outcome.Connected?
      modifies `summary, `listenerReady, `pausedAt, `marks, `clock
      ensures (Value(), more) == AcceptStep(old(Value()), attempt)
    {
      marks, clock := marks + [Tried(attempt.at, attempt.outcome, NoEntry)], attempt.after;
      match attempt.outcome {
        case Drained =>
          listenerReady := false;
          more := Ok(false);
        case Retry =>
          if summary.transientAcceptErrors == U64_MAX {
            return Err(CounterExhausted);
          }
          summary := summary.(transientAcceptErrors := summary.transientAcceptErrors + 1);
          more := Ok(true);
        case Pause =>
          if summary.resourcePauseEntries == U64_MAX {
            return Err(CounterExhausted);
          }
          summary := summary.(resourcePauseEntries := summary.resourcePauseEntries + 1);
          pausedAt, marks := Some(attempt.after), marks + [Paused(attempt.after, false)];
          more := Ok(false);
        case Fatal =>
          more := Err(Io);
      }
    }

    /** One bounded turn of accept attempts. `attempts` are the outcomes ahead; the turn uses a prefix of them. */
    method AcceptReady(now: nat, attempts: seq<Attempt>) returns (r: Result<(), Failure>, tries: nat)
      requires Valid() && !registry.stopping
      modifies this
      ensures (Value(), r, tries) == AcceptTurn(old(Value()), now, attempts)
      ensures EntryLaws.TurnFated(old(Value()), Value(), tries, r)
    {
      hide EntryLaws.TurnFated, Good, AcceptStep, AcceptsFrom, Controls.Grows, Booked, ListenerLaws.Recorded;
      EntryLaws.AcceptTurnFates(Value(), now, attempts);
      tries := 0;
      if !listenerReady || AcceptDelay(pausedAt, now) != 0 {
        return Ok(()), 0;
      }
      ListenerLaws.StartGood(Value(), now);
      pausedAt, clock := None, now;
      var progressed, reading := false, now;
      var quota := if turnSteps < EVENT_BATCH then turnSteps else EVENT_BATCH;
      ghost var all := AcceptsFrom(Value(), attempts, quota, false);
      while tries < quota
        invariant Valid() && !registry.stopping && clock == reading
        invariant tries <= quota && tries <= |attempts|
        invariant all == AfterTries(tries, AcceptsFrom(Value(), attempts[tries..], quota - tries, progressed))
      {
        AcceptsNone(Value(), attempts[tries..], quota - tries, progressed, tries);
        if tries == |attempts| {
          return Ok(()), tries;
        }
        var attempt := attempts[tries];
        assert attempts[tries..][1..] == attempts[tries + 1..];
        ListenerLaws.NextFits(Value());
        ListenerLaws.AcceptGood(Value(), attempt);
        AcceptsOne(Value(), attempts[tries..], quota - tries, progressed, tries);
        ListenerLaws.AcceptClock(Value(), attempt);
        var more := AcceptOne(attempt);
        tries, reading := tries + 1, attempt.after;
        if more.Err? {
          return Err(more.error), tries;
        }
        if !more.value {
          return Ok(()), tries;
        }
        progressed := progressed || attempt.outcome.Connected?;
      }
      AcceptsNone(Value(), attempts[tries..], quota - tries, progressed, tries);
      if !progressed {
        if summary.retryQuotaBackoffs == U64_MAX {
          return Err(CounterExhausted), tries;
        }
        summary := summary.(retryQuotaBackoffs := summary.retryQuotaBackoffs + 1);
        pausedAt, marks := Some(reading), marks + [Paused(reading, true)];
      }
      r := Ok(());
    }

    /** Requested retirements that are visible after some calls. */
    method RetireLate(ids: seq<ConnectionId>) returns (ok: bool)
      requires Valid()
      modifies `ready, `registry, `live, `summary, `closed
      ensures (Value(), ok) == LateRetire(old(Value()), ids)
    {
      hide Good, RetireAsked, CallsStep, Leads;
      CallsLeads(Value(), ids);
      GoodOf(Value(), CallsStep(Value(), ids));
      CloseCalls(ids);
      ok := RetireRequested();
    }

    /** Requested retirements, once more if the control flag was set meanwhile. */
    method RetireFirst(turn: Turn) returns (ok: bool)
      requires Valid()
      modifies `ready, `registry, `live, `summary, `closed
      ensures (Value(), ok) == FirstRetire(old(Value()), turn)
    {
      hide Good, LateRetire, Leads;
      RunLaws.LateLeads(Value(), turn.early);
      GoodOfStep(Value(), LateRetire(Value(), turn.early).0, LateRetire(Value(), turn.early).1);
      ok := RetireLate(turn.early);
      if ok && turn.control.Some? {
        ok := RetireLate(turn.control.value);
      }
    }

    /** The part of a turn before the listener: requested retirements, credit, polls, requested retirements. */
    method ServeTasks(turn: Turn) returns (ok: bool)
      requires Valid() && RunLaws.SaneTurn(turn)
      modifies `ready, `registry, `live, `summary, `closed
      ensures (Value(), ok) == ServeStep(old(Value()), turn)
    {
      hide Good, FirstRetire, LateRetire, PollsFrom, CreditStep, Leads, AllSettled, Progress.Sane, SameListener;
      RunLaws.FirstLeads(Value(), turn);
      GoodOfStep(Value(), FirstRetire(Value(), turn).0, FirstRetire(Value(), turn).1);
      ok := RetireFirst(turn);
      if !ok {
        return;
      }
      ghost var first := Value();
      ghost var credited := CreditStep(first, turn.slotCredit, turn.byteCredit);
      CreditLeads(first, turn.slotCredit, turn.byteCredit);
      GoodOf(first, credited);
      ResumeCredit(turn.slotCredit, turn.byteCredit);
      PollsLead(credited, turn.polls, TURN_BATCH);
      ghost var (rest, ended, _) := PollsFrom(credited, turn.polls, TURN_BATCH);
      GoodOfStep(credited, rest, ended);
      var ran, _ := RunReady(turn.polls);
      if !ran {
        return false;
      }
      ok := RetireLate(turn.late);
    }

    /** One turn of the loop. */
    method RunTurn(turn: Turn) returns (outcome: Outcome)
      requires Valid() && !registry.stopping && RunLaws.SaneTurn(turn)
      modifies this
      ensures (Value(), outcome) == TurnStep(old(Value()), turn)
    {
      hide Good, ServeStep, AcceptTurn, DispatchStep, Dispatched, Leads, RunLaws.SaneTurn;
      if turn.wakeFailed {
        return Broken(Io);
      }
      RunLaws.ServeLeads(Value(), turn);
      StillRuns(Value(), ServeStep(Value(), turn).0, ServeStep(Value(), turn).1);
      var ok := ServeTasks(turn);
      if !ok {
        return Broken(CounterExhausted);
      }
      if turn.stopped {
        return Stopped;
      }
      var accepted, _ := AcceptReady(turn.now, turn.attempts);
      if accepted.Err? {
        return Broken(accepted.error);
      }
      if turn.pollFails {
        return Broken(Io);
      }
      Dispatch(turn.events);
      outcome := Goes;
    }

    /** The worker's loop until it is stopped or fails. */
    method Drive(turns: seq<Turn>) returns (outcome: Outcome)
      requires Valid() && !registry.stopping && ListenerLaws.AtPace(Value()) && RunLaws.Clocked(turns, clock)
      requires forall turn <- turns :: RunLaws.SaneTurn(turn)
      modifies this
      ensures (Value(), outcome) == DriveStep(old(Value()), turns)
    {
      hide Good, TurnStep, ListenerLaws.AtPace, RunLaws.SaneTurn, Leads;
      for i := 0 to |turns|
        invariant Valid() && !registry.stopping && ListenerLaws.AtPace(Value())
        invariant RunLaws.Clocked(turns[i..], clock)
        invariant DriveStep(old(Value()), turns) == DriveStep(Value(), turns[i..])
      {
        ghost var before := Value();
        assert turns[i..][1..] == turns[i + 1..];
        RunLaws.TurnLeads(before, turns[i]);
        StillRuns(before, TurnStep(before, turns[i]).0, TurnStep(before, turns[i]).1 != Broken(CounterExhausted));
        RunLaws.ClockedOn(turns[i..], clock, TurnStep(before, turns[i]).0.clock);
        outcome := RunTurn(turns[i]);
        if !outcome.Goes? {
          return;
        }
      }
      outcome := Stopped;
    }

    /**
     * A whole run of a worker: whatever happens in its turns, shutdown leaves nothing live, every ticket ever given
     * has its one result, attempts kept their pace, and counters that are reported complete are exactly the sums
     * over what was closed and the counts of what was tried.
     */
    method RunWith(turns: seq<Turn>) returns (outcome: Outcome, stoppedWith: nat)
      requires Valid() && Booked(Value()) && !registry.stopping && ListenerLaws.AtPace(Value())
      requires RunLaws.Clocked(turns, clock) && forall turn <- turns :: RunLaws.SaneTurn(turn)
      modifies this
      ensures (Value(), outcome) == RunStep(old(Value()), turns)
      ensures stoppedWith == |DriveStep(old(Value()), turns).0.tables.live| <= maxConnections
      ensures live == map[] && registry.stopping && ListenerLaws.Paced(marks)
      ensures forall id <- registry.asked :: registry.TicketResult(id).Some?
      ensures summary.countersComplete ==> Booked(Value())
    {
      hide Good, Booked, DriveStep, RetireAll, RunLaws.Clocked, RunLaws.SaneTurn, ListenerLaws.AtPace, Leads,
        Controls.Grows, StopStep;
      RunLaws.RunKeeps(Value(), turns);
      RunLaws.DriveLeads(Value(), turns);
      ghost var start := Value();
      outcome := Drive(turns);
      stoppedWith := |live|;
      GoodOfStep(start, Value(), outcome != Broken(CounterExhausted));
      RunLaws.FlaggedGood(Value(), outcome);
      if outcome == Broken(CounterExhausted) {
        summary := summary.(countersComplete := false);
      }
      var cleaned := Shutdown();
      if outcome.Stopped? && !cleaned {
        outcome := Broken(CounterExhausted);
      }
    }
  }

  lemma GoodOfStep(before: Work, after: Work, ok: bool)
    requires Leads(before, after, ok)
    ensures Good(after)
  {
  }

  lemma StillRuns(before: Work, after: Work, ok: bool)
    requires Leads(before, after, ok)
    ensures Good(after) && after.tables.registry.stopping == before.tables.registry.stopping
  {
  }
}
