/** What a whole run of the worker does with its turns, and how it ends. */
module RunService {
  import opened Wire
  import opened Records
  import opened Orders
  import opened Driver
  import opened Turns
  import opened TurnLaws
  import opened ListenerLaws
  import opened RunLaws
  import opened ServiceLaws
  import opened TurnService
  import Controls
  import Maps

  /** Where the loop stands before turn `i`. */
  function Before(work: Work, turns: seq<Turn>, i: nat): Work
    requires i <= |turns|
  {
    DriveStep(work, turns[..i]).0
  }

  /** The loop comes to turn `i`: every turn before it goes on. */
  predicate Reaches(work: Work, turns: seq<Turn>, i: nat)
    requires i <= |turns|
  {
    forall j :: 0 <= j < i ==> TurnStep(Before(work, turns, j), turns[j]).1.Goes?
  }

  /** The loop makes its turns one after the other, each from where the one before it left off. */
  lemma {:induction false} DriveInOrder(work: Work, turns: seq<Turn>, i: nat)
    requires i <= |turns| && Reaches(work, turns, i)
    ensures DriveStep(work, turns) == DriveStep(Before(work, turns, i), turns[i..])
    ensures i < |turns| ==>
      var (next, outcome) := TurnStep(Before(work, turns, i), turns[i]);
      if outcome.Goes? then Before(work, turns, i + 1) == next else DriveStep(work, turns) == (next, outcome)
    decreases |turns|
  {
    hide TurnStep;
    if i == 0 {
      assert turns[..0] == [] && turns[0..] == turns;
      if turns != [] {
        var first := turns[..1];
        assert first[0] == turns[0] && first[1..] == [];
        assert DriveStep(TurnStep(work, turns[0]).0, first[1..]) == (TurnStep(work, turns[0]).0, Stopped);
      }
    } else {
      var next := TurnStep(work, turns[0]).0;
      assert turns[..0] == [];
      assert Before(work, turns, 0) == work;
      forall j | 0 <= j <= i
        ensures j < |turns| ==> j + 1 <= |turns| && Before(work, turns, j + 1) == Before(next, turns[1..], j)
      {
        if j < |turns| {
          assert turns[..j + 1][0] == turns[0] && turns[..j + 1][1..] == turns[1..][..j];
        }
      }
      assert forall j :: 0 <= j < i - 1 ==> turns[1..][j] == turns[j + 1];
      DriveInOrder(next, turns[1..], i - 1);
      assert turns[1..][i - 1..] == turns[i..];
    }
  }

  /** What the loop keeps up to any turn that it comes to. */
  lemma {:induction false} BeforeGood(work: Work, turns: seq<Turn>, i: nat)
    requires i <= |turns| && Reaches(work, turns, i)
    requires Good(work) && !work.tables.registry.stopping && AtPace(work) && Clocked(turns, work.clock)
    requires forall turn <- turns :: SaneTurn(turn)
    ensures var before := Before(work, turns, i);
      && Good(before) && !before.tables.registry.stopping && AtPace(before) && Clocked(turns[i..], before.clock)
      && Leads(work, before, true)
    decreases i
  {
    hide Good, AtPace, SaneTurn, Leads, TurnStep;
    if i == 0 {
      assert turns[..0] == [] && turns[0..] == turns;
      LeadsItself(work);
    } else {
      BeforeGood(work, turns, i - 1);
      DriveInOrder(work, turns, i - 1);
      var before, turn := Before(work, turns, i - 1), turns[i - 1];
      assert turns[i - 1..][0] == turn && turns[i - 1..][1..] == turns[i..];
      TurnLeads(before, turn);
      var next := TurnStep(before, turn).0;
      ClockedOn(turns[i - 1..], before.clock, next.clock);
      LeadsOn(work, before, next, true);
      GoodAfter(before, next, true);
      StillRuns(before, next, true);
    }
  }

  /** Every turn that the loop comes to, and that goes on, does its work. */
  lemma EveryTurnDelivers(work: Work, turns: seq<Turn>, i: nat)
    requires i < |turns| && Reaches(work, turns, i)
    requires Good(work) && !work.tables.registry.stopping && AtPace(work) && Clocked(turns, work.clock)
    requires forall turn <- turns :: SaneTurn(turn)
    ensures var before := Before(work, turns, i);
      TurnStep(before, turns[i]).1.Goes? ==>
        Delivered(before, turns[i], Before(work, turns, i + 1))
  {
    hide Good, AtPace, SaneTurn, Leads, TurnStep, Delivered;
    BeforeGood(work, turns, i);
    DriveInOrder(work, turns, i);
    var before := Before(work, turns, i);
    assert turns[i..][0] == turns[i];
    TurnDelivers(before, turns[i]);
  }

  // The end of a run.

  /** Shutdown gives every connection that is still live its result. */
  lemma {:induction false} RetireAllResults(work: Work)
    requires Good(work)
    ensures var (next, ok) := RetireAll(work);
      forall token <- work.tables.live ::
        next.tables.registry.TicketResult(work.tables.Id(token)) == Some(Controls.ReceiverStopped)
    decreases |work.tables.live|
  {
    hide Good, RetireStep, Controls.Registry.TicketResult, Leads;
    if work.tables.live != map[] {
      var token := Least(work.tables.live.Keys);
      Maps.OneLess(work.tables.live, token);
      var next := RetireStep(work, token, Controls.ReceiverStopped).0;
      RetireStepGood(work, token, Controls.ReceiverStopped);
      RetireAllResults(next);
      RetireAllLeads(next);
      var (last, rest) := RetireAll(next);
      TicketsStay(next, last, rest);
      forall other | other in work.tables.live
        ensures last.tables.registry.TicketResult(work.tables.Id(other)) == Some(Controls.ReceiverStopped)
      {
        assert next.tables.Id(other) == work.tables.Id(other);
        assert other == token || other in next.tables.live;
      }
    }
  }

  /** Why a loop broke. */
  predicate BrokenBy(turns: seq<Turn>) {
    exists turn <- turns ::
      turn.wakeFailed || turn.pollFails || exists attempt <- turn.attempts :: Faulty(attempt.outcome)
  }

  lemma {:induction false} DriveCause(work: Work, turns: seq<Turn>)
    requires Good(work) && !work.tables.registry.stopping && AtPace(work) && Clocked(turns, work.clock)
    requires forall turn <- turns :: SaneTurn(turn)
    ensures DriveStep(work, turns).1 == Broken(Io) ==> BrokenBy(turns)
    decreases |turns|
  {
    hide Good, AtPace, SaneTurn, Leads, TurnStep, Delivered, Faulty;
    if turns != [] {
      TurnDelivers(work, turns[0]);
      var (next, outcome) := TurnStep(work, turns[0]);
      assert turns[0] in turns;
      if outcome.Goes? {
        TurnLeads(work, turns[0]);
        ClockedOn(turns, work.clock, next.clock);
        GoodAfter(work, next, true);
        StillRuns(work, next, true);
        DriveCause(next, turns[1..]);
      }
    }
  }

  /**
   * How a run ends: every connection that was live is told of the stop, whoever asked to close one before in a turn
   * that went on was told so, and the outcome is a stop exactly if the loop stopped and its counters are complete.
   */
  lemma RunEnds(work: Work, turns: seq<Turn>)
    requires Good(work) && Booked(work) && !work.tables.registry.stopping && AtPace(work)
    requires Clocked(turns, work.clock) && forall turn <- turns :: SaneTurn(turn)
    ensures var driven := DriveStep(work, turns).0;
      var (final, outcome) := RunStep(work, turns);
      && (forall token <- driven.tables.live ::
            final.tables.registry.TicketResult(driven.tables.Id(token)) == Some(Controls.ReceiverStopped))
      && (forall id :: driven.tables.registry.TicketResult(id).Some? ==>
            final.tables.registry.TicketResult(id) == driven.tables.registry.TicketResult(id))
      && (outcome.Stopped? <==> final.summary.countersComplete && DriveStep(work, turns).1.Stopped?)
      && (outcome == Broken(CounterExhausted) ==> !final.summary.countersComplete)
      && (outcome == Broken(Io) ==> BrokenBy(turns))
  {
    hide Good, AtPace, SaneTurn, Leads, DriveStep, RetireAll, Flagged, StopStep, Booked, BrokenBy, Clocked,
      Controls.Registry.TicketResult;
    DriveLeads(work, turns);
    DriveCause(work, turns);
    RunKeeps(work, turns);
    var (driven, outcome) := DriveStep(work, turns);
    GoodAfter(work, driven, outcome != Broken(CounterExhausted));
    FlaggedGood(driven, outcome);
    var flagged := Flagged(driven, outcome);
    RetireAllResults(flagged);
    RetireAllLeads(flagged);
    var (emptied, ok) := RetireAll(flagged);
    TicketsStay(flagged, emptied, ok);
    GoodAfter(flagged, emptied, ok);
    StopGood(emptied);
    StopTickets(emptied);
    RunShape(work, turns);
    if outcome.Stopped? && ok {
      BooksComplete(work, driven, flagged, emptied);
    }
  }

  lemma StopTickets(work: Work)
    requires Good(work) && work.tables.live == map[]
    ensures forall id :: work.tables.registry.TicketResult(id).Some? ==>
      StopStep(work).tables.registry.TicketResult(id) == work.tables.registry.TicketResult(id)
  {
    StopGood(work);
    hide Good, StopStep, Booked;
  }

  lemma BooksComplete(work: Work, driven: Work, flagged: Work, emptied: Work)
    requires Booked(work) && Leads(work, driven, true) && flagged == driven && Leads(flagged, emptied, true)
    ensures emptied.summary.countersComplete
  {
    hide Good;
  }
}
