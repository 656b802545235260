/** What a turn does for its tasks: polls in order, turns kept, credit delivered, close calls honoured. */
module ServiceLaws {
  import opened Wire
  import opened Records
  import opened Orders
  import opened ReadySet
  import opened Driver
  import opened Turns
  import opened TurnLaws
  import Controls

  // One poll.

  /** A poll ends as it says: its task is gone, waits for exactly what it slept for, or owns another turn. */
  lemma PollEnds(tables: Tables, token: Token, poll: PollRun)
    requires tables.Agree() && token in tables.live && poll.progress.Sane()
    ensures token in tables.ready.states
    ensures var after := AfterPoll(tables, token, poll);
      match poll.end
      case Finished =>
        && token !in after.live && token !in after.ready.states
        && after.registry.TicketResult(tables.Id(token)) == Some(Controls.ConnectionEnded)
      case Slept(reason) =>
        && token in after.live && after.live[token] == poll.progress && token in after.ready.states
        && after.ready.states[token] == (if tables.ready.states[token].Notified? then Queued else Waiting(reason))
        && (reason.Slots? ==> token in after.ready.slotWaiters)
        && (reason.Bytes? ==> token in after.ready.byteWaiters)
      case Yielded =>
        token in after.live && after.live[token] == poll.progress && after.ready.Runnable(token)
  {
    AgreeFacts(tables);
    DuringPollAgree(tables, token, poll);
    BlocksKeep(tables.ready, token, poll.blocks);
    var during := DuringPoll(tables, token, poll);
    match poll.end
    case Finished => RetiredAgree(during, token, Controls.ConnectionEnded);
      RetiredGone(during, token);
    case Slept(reason) => ParkedAs(during, token, reason);
    case Yielded => YieldedAs(during, token);
  }

  lemma RetiredGone(tables: Tables, token: Token)
    requires tables.Agree()
    ensures var after := Retired(tables, token, Controls.ConnectionEnded);
      token !in after.live && token !in after.ready.states
  {
    RetireConsistent(tables.ready, token);
    hide Retire, Controls.Settle, Controls.Remove, Controls.Inv;
  }

  lemma ParkedAs(tables: Tables, token: Token, reason: WaitReason)
    requires tables.Agree() && token in tables.ready.states
    ensures var after := Park(tables.ready, token, reason);
      && token in after.states
      && after.states[token] == (if tables.ready.states[token].Notified? then Queued else Waiting(reason))
      && (reason.Slots? ==> token in after.slotWaiters) && (reason.Bytes? ==> token in after.byteWaiters)
  {
    ParkConsistent(tables.ready, token, reason);
    hide Park, Ready.Consistent, Controls.Inv;
  }

  lemma YieldedAs(tables: Tables, token: Token)
    requires tables.Agree() && token in tables.ready.states
    ensures Enqueue(tables.ready, token).0.Runnable(token)
  {
    EnqueueSound(tables.ready, token);
    hide Enqueue, Ready.Sound, Controls.Inv;
  }

  // The order of polls.

  /** Tokens at the front of the queue, without `token`, stay at its front. */
  predicate FrontStays(before: seq<Token>, after: seq<Token>, front: seq<Token>) {
    front <= before ==> front <= after
  }

  lemma EnqueueFront(ready: Ready, token: Token, front: seq<Token>)
    ensures FrontStays(ready.queue, Enqueue(ready, token).0.queue, front)
  {
  }

  lemma WithoutFront(tokens: seq<Token>, token: Token, front: seq<Token>)
    requires token !in front
    ensures FrontStays(tokens, Without(tokens, token), front)
  {
    if token in tokens && front <= tokens {
      assert tokens[Position(tokens, token)] == token;
      assert |front| <= Position(tokens, token);
    }
  }

  lemma LeaveFront(ready: Ready, token: Token, reason: Scarce, front: seq<Token>)
    ensures FrontStays(ready.queue, RemoveRequest(ready, token, reason).0.queue, front)
  {
    var removed := ready.WithWaiters(reason, Without(ready.Waiters(reason), token));
    if removed.Waiters(reason) != [] {
      EnqueueFront(removed, removed.Waiters(reason)[0], front);
    }
    hide Enqueue, Without;
  }

  lemma {:induction false} BlocksFront(ready: Ready, token: Token, blocks: seq<Block>, front: seq<Token>)
    ensures FrontStays(ready.queue, Blocks(ready, token, blocks).queue, front)
    decreases |blocks|
  {
    hide RemoveRequest, Orders.Appended;
    if blocks != [] {
      match blocks[0]
      case Join(reason) => BlocksFront(RequestTurn(ready, token, reason).0, token, blocks[1..], front);
      case Leave(reason) =>
        LeaveFront(ready, token, reason, front);
        BlocksFront(RemoveRequest(ready, token, reason).0, token, blocks[1..], front);
    }
  }

  lemma RetireFront(ready: Ready, token: Token, front: seq<Token>)
    requires token !in front
    ensures FrontStays(ready.queue, Retire(ready, token).0.queue, front)
  {
    var gone := ready.(states := ready.states - {token}, queue := Without(ready.queue, token));
    WithoutFront(ready.queue, token, front);
    LeaveFront(gone, token, Slots, front);
    LeaveFront(RemoveRequest(gone, token, Slots).0, token, Bytes, front);
    hide RemoveRequest, Without;
  }

  lemma PollFront(work: Work, token: Token, poll: PollRun, front: seq<Token>)
    requires token !in front
    ensures FrontStays(work.tables.ready.queue, PollStep(work, token, poll).0.tables.ready.queue, front)
  {
    hide *;
    DuringQueue(work, token, poll);
    BlocksFront(work.tables.ready, token, poll.blocks, front);
    SettledFront(work, token, poll, front);
    FrontTwice(work.tables.ready.queue, DuringPoll(work.tables, token, poll).ready.queue,
               PollStep(work, token, poll).0.tables.ready.queue, front);
  }

  lemma FrontTwice(before: seq<Token>, middle: seq<Token>, after: seq<Token>, front: seq<Token>)
    requires FrontStays(before, middle, front) && FrontStays(middle, after, front)
    ensures FrontStays(before, after, front)
  {
  }

  lemma DuringQueue(work: Work, token: Token, poll: PollRun)
    ensures DuringPoll(work.tables, token, poll).ready == Blocks(work.tables.ready, token, poll.blocks)
  {
    hide Blocks;
  }

  /** How a poll settles its task leaves the front of the queue. */
  lemma SettledFront(work: Work, token: Token, poll: PollRun, front: seq<Token>)
    requires token !in front
    ensures FrontStays(DuringPoll(work.tables, token, poll).ready.queue,
                       PollStep(work, token, poll).0.tables.ready.queue, front)
  {
    hide Blocks, DuringPoll, Retire, Enqueue, Without, Orders.Appended, CloseStep, Controls.Settle, Controls.Remove;
    var during := DuringPoll(work.tables, token, poll);
    RetireFront(during.ready, token, front);
    WithoutFront(during.ready.queue, token, front);
    EnqueueFront(during.ready, token, front);
  }

  /** A round serves the run queue in its order: its first polls are those of the first tasks in the queue. */
  lemma {:induction false} RoundInOrder(work: Work, polls: seq<PollRun>, budget: nat)
    requires Good(work) && forall poll <- polls :: poll.progress.Sane()
    ensures var polled := PollsFrom(work, polls, budget).2;
      var queue := work.tables.ready.queue;
      polled <= queue || queue <= polled
    decreases |polls|
  {
    hide Good, Leads, PollStep, Take, Progress.Sane, NoneStarts;
    if budget > 0 && polls != [] {
      TakeLeads(work);
      TakeShape(work.tables.ready);
      var (taken, token) := Take(work.tables.ready);
      if token.Some? {
        var running := work.(tables := work.tables.(ready := taken));
        GoodOf(work, running);
        GoodQueue(work);
        PollLeads(running, token.value, polls[0]);
        PollFront(running, token.value, polls[0], taken.queue);
        var (next, ok) := PollStep(running, token.value, polls[0]);
        if ok {
          LeadsOn(work, running, next, ok);
          GoodOf(work, next);
          RoundInOrder(next, polls[1..], budget - 1);
        }
      }
    }
  }

  lemma TakeShape(ready: Ready)
    ensures var (taken, token) := Take(ready);
      if ready.queue == [] then token == None && taken == ready
      else token == Some(ready.queue[0]) && taken.queue == ready.queue[1..]
  {
  }

  lemma GoodQueue(work: Work)
    requires Good(work)
    ensures var queue := work.tables.ready.queue; Distinct(queue) && (queue != [] ==> queue[0] !in queue[1..])
  {
  }

  // No turn is lost.

  /** A task that owned a turn was polled, or owns a turn, or is gone. */
  ghost predicate KeepsTurns(before: Ready, after: Ready, polled: seq<Token>) {
    forall token :: before.Runnable(token) && token !in polled && token in after.states ==> after.Runnable(token)
  }

  /** No task of before comes back. */
  ghost predicate NoneReturns(first: Ready, second: Ready, third: Ready) {
    forall token :: token in first.states && token in third.states ==> token in second.states
  }

  lemma TurnsTwice(first: Ready, second: Ready, third: Ready, polled: seq<Token>, more: seq<Token>)
    requires KeepsTurns(first, second, polled) && KeepsTurns(second, third, more) && NoneReturns(first, second, third)
    ensures KeepsTurns(first, third, polled + more)
  {
  }

  lemma NoneTwice(first: Ready, second: Ready, third: Ready)
    requires KeepsTurns(first, second, []) && KeepsTurns(second, third, []) && NoneReturns(first, second, third)
    ensures KeepsTurns(first, third, [])
  {
    hide NoneReturns;
    TurnsTwice(first, second, third, [], []);
    var none: seq<Token> := [];
    assert none + none == none;
  }

  lemma SameTurns(ready: Ready)
    ensures KeepsTurns(ready, ready, [])
  {
  }

  lemma StartsKeep(before: Ready, after: Ready, token: Token)
    requires NoneStarts(before, after, token)
    ensures KeepsTurns(before, after, [token])
    ensures forall other :: other in after.states && other != token ==> other in before.states
  {
  }

  /** Live tasks are those of the scheduler. */
  lemma GoodStates(work: Work)
    requires Good(work)
    ensures work.tables.ready.states.Keys == work.tables.live.Keys
    ensures work.tables.Agree() && work.tables.ready.Consistent()
  {
    AgreeFacts(work.tables);
  }

  lemma {:induction false} RoundKeepsTurns(work: Work, polls: seq<PollRun>, budget: nat)
    requires Good(work) && forall poll <- polls :: poll.progress.Sane()
    ensures var (next, ok, polled) := PollsFrom(work, polls, budget);
      ok ==> KeepsTurns(work.tables.ready, next.tables.ready, polled)
    decreases |polls|
  {
    hide Good, Leads, PollStep, Take, Progress.Sane, NoneStarts, KeepsTurns;
    SameTurns(work.tables.ready);
    if budget > 0 && polls != [] {
      TakeLeads(work);
      var (taken, token) := Take(work.tables.ready);
      if token.Some? {
        var running := work.(tables := work.tables.(ready := taken));
        GoodOf(work, running);
        PollLeads(running, token.value, polls[0]);
        var (next, ok) := PollStep(running, token.value, polls[0]);
        if ok {
          LeadsOn(work, running, next, ok);
          GoodOf(work, next);
          RoundKeepsTurns(next, polls[1..], budget - 1);
          PollsLead(next, polls[1..], budget - 1);
          var (last, fine, polled) := PollsFrom(next, polls[1..], budget - 1);
          if fine {
            StartsTwice(work.tables.ready, taken, next.tables.ready, token.value);
            StartsKeep(work.tables.ready, next.tables.ready, token.value);
            GoodAfter(next, last, fine);
            GoodStates(next);
            GoodStates(last);
            TurnsTwice(work.tables.ready, next.tables.ready, last.tables.ready, [token.value], polled);
          }
        }
      }
    }
  }

  lemma RetireTurns(work: Work, token: Token, result: Controls.CloseResult)
    requires Good(work) && token in work.tables.live
    ensures KeepsTurns(work.tables.ready, RetireStep(work, token, result).0.tables.ready, [])
  {
    GoodStates(work);
    RetireConsistent(work.tables.ready, token);
    RetireStepShape(work, token, result);
    hide Good, RetireStep, Retire, Ready.Sound, CloseStep, Controls.Settle, Controls.Remove;
  }

  lemma {:induction false} RetireEachTurns(work: Work, tokens: seq<Token>, result: Controls.CloseResult)
    requires Good(work) && Distinct(tokens) && forall token <- tokens :: token in work.tables.live
    requires result.RetiredByRequest? ==> forall token <- tokens :: Asked(work.tables, token)
    ensures var next := RetireEach(work, tokens, result).0;
      KeepsTurns(work.tables.ready, next.tables.ready, [])
    decreases |tokens|
  {
    hide Good, Booked, Controls.Grows, RetireStep, KeepsTurns, Asked, Leads, SameListener,
      Controls.Registry.TicketResult;
    SameTurns(work.tables.ready);
    if tokens != [] {
      var token := tokens[0];
      var (next, ok) := RetireStep(work, token, result);
      RetireStepGood(work, token, result);
      RetireTurns(work, token, result);
      if ok {
        RestAsked(work, tokens, result);
        RetireEachTurns(next, tokens[1..], result);
        LaterKeep(work, next, tokens[1..], result);
      }
    }
  }

  lemma RestAsked(work: Work, tokens: seq<Token>, result: Controls.CloseResult)
    requires Good(work) && Distinct(tokens) && tokens != [] && forall token <- tokens :: token in work.tables.live
    requires result.RetiredByRequest? ==> forall token <- tokens :: Asked(work.tables, token)
    ensures var next := RetireStep(work, tokens[0], result).0;
      && Distinct(tokens[1..]) && (forall token <- tokens[1..] :: token in next.tables.live)
      && (result.RetiredByRequest? ==> forall token <- tokens[1..] :: Asked(next.tables, token))
  {
    hide Good, RetireStep, Asked;
    OthersAsked(work, tokens[0], result);
    RetireStepShape(work, tokens[0], result);
    assert forall other <- tokens[1..] :: other in tokens && other != tokens[0];
  }

  lemma LaterKeep(work: Work, next: Work, tokens: seq<Token>, result: Controls.CloseResult)
    requires Good(work) && Good(next) && KeepsTurns(work.tables.ready, next.tables.ready, [])
    requires Distinct(tokens) && forall token <- tokens :: token in next.tables.live
    requires result.RetiredByRequest? ==> forall token <- tokens :: Asked(next.tables, token)
    requires KeepsTurns(next.tables.ready, RetireEach(next, tokens, result).0.tables.ready, [])
    ensures KeepsTurns(work.tables.ready, RetireEach(next, tokens, result).0.tables.ready, [])
  {
    hide Good, KeepsTurns, Asked, RetireEach, NoneReturns;
    FewerLive(next, tokens, result);
    var last := RetireEach(next, tokens, result).0;
    FewerReturn(work, next, last);
    NoneTwice(work.tables.ready, next.tables.ready, last.tables.ready);
  }

  lemma FewerLive(work: Work, tokens: seq<Token>, result: Controls.CloseResult)
    requires Good(work) && Distinct(tokens) && forall token <- tokens :: token in work.tables.live
    requires result.RetiredByRequest? ==> forall token <- tokens :: Asked(work.tables, token)
    ensures var next := RetireEach(work, tokens, result).0;
      Good(next) && next.tables.live.Keys <= work.tables.live.Keys
  {
    hide Good, Booked, Controls.Grows, RetireEach, Asked;
    RetireEachLeads(work, tokens, result);
  }

  lemma FewerReturn(first: Work, second: Work, third: Work)
    requires Good(second) && Good(third) && third.tables.live.Keys <= second.tables.live.Keys
    ensures NoneReturns(first.tables.ready, second.tables.ready, third.tables.ready)
  {
    GoodStates(second);
    GoodStates(third);
    hide Good;
  }

  /** Retirement changes no report of those who stay. */
  lemma {:induction false} RetireEachReports(work: Work, tokens: seq<Token>, result: Controls.CloseResult)
    ensures forall token <- RetireEach(work, tokens, result).0.tables.live ::
      token in work.tables.live && RetireEach(work, tokens, result).0.tables.live[token] == work.tables.live[token]
    decreases |tokens|
  {
    hide RetireStep;
    if tokens != [] {
      if tokens[0] in work.tables.live {
        RetireStepShape(work, tokens[0], result);
      } else {
        NothingRetired(work, tokens[0], result);
      }
      RetireEachReports(RetireStep(work, tokens[0], result).0, tokens[1..], result);
    }
  }

  lemma NothingRetired(work: Work, token: Token, result: Controls.CloseResult)
    requires token !in work.tables.live
    ensures RetireStep(work, token, result) == (work, true)
  {
  }

  lemma GoodAfter(before: Work, after: Work, ok: bool)
    requires Leads(before, after, ok)
    ensures Good(after)
  {
  }

  // Reports.

  /** Whoever was polled last at `i` is gone if that poll finished it, and else shows what that poll reported. */
  predicate ReportedAt(after: Work, polls: seq<PollRun>, polled: seq<Token>, i: nat)
    requires i < |polled| <= |polls|
  {
    (forall j :: i < j < |polled| ==> polled[j] != polled[i]) ==>
      if polls[i].end.Finished? then polled[i] !in after.tables.live
      else polled[i] in after.tables.live && after.tables.live[polled[i]] == polls[i].progress
  }

  lemma PollReports(work: Work, token: Token, poll: PollRun)
    requires Good(work) && token in work.tables.live && poll.progress.Sane()
    ensures var (next, ok) := PollStep(work, token, poll);
      && (forall other <- work.tables.live :: other != token ==>
            other in next.tables.live && next.tables.live[other] == work.tables.live[other])
      && (ok ==> if poll.end.Finished? then token !in next.tables.live
                 else token in next.tables.live && next.tables.live[token] == poll.progress)
  {
    GoodStates(work);
    DuringPollAgree(work.tables, token, poll);
    var during := work.(tables := DuringPoll(work.tables, token, poll));
    if poll.progress.counterOverflow {
    } else if poll.end.Finished? {
      RetireStepShape(during, token, Controls.ConnectionEnded);
    } else {
      PendingShape(work.tables, token, poll);
    }
    hide Good, Blocks, Park, Enqueue, RetireStep, AfterPoll, Tables.Agree, NoneStarts;
  }

  /** A round polls whom it takes: afterwards each of them shows the report of its last poll, or is gone. */
  lemma {:induction false} RoundReports(work: Work, polls: seq<PollRun>, budget: nat)
    requires Good(work) && forall poll <- polls :: poll.progress.Sane()
    ensures var (next, ok, polled) := PollsFrom(work, polls, budget);
      && |polled| <= |polls|
      && (ok ==> forall i :: 0 <= i < |polled| ==> ReportedAt(next, polls, polled, i))
      && (ok ==> forall token <- work.tables.live :: token !in polled ==>
            token in next.tables.live && next.tables.live[token] == work.tables.live[token])
    decreases |polls|
  {
    hide Good, Leads, PollStep, Take, Progress.Sane, NoneStarts, ReportedAt;
    if budget > 0 && polls != [] {
      TakeLeads(work);
      var (taken, token) := Take(work.tables.ready);
      if token.Some? {
        var running := work.(tables := work.tables.(ready := taken));
        GoodOf(work, running);
        PollLeads(running, token.value, polls[0]);
        PollReports(running, token.value, polls[0]);
        var (next, ok) := PollStep(running, token.value, polls[0]);
        if ok {
          LeadsOn(work, running, next, ok);
          GoodOf(work, next);
          RoundReports(next, polls[1..], budget - 1);
          PollsLead(next, polls[1..], budget - 1);
          var (last, fine, polled) := PollsFrom(next, polls[1..], budget - 1);
          if fine {
            ReportsOn(last, polls, token.value, polled);
          }
        } else {
          PollsLead(work, polls, budget);
        }
      }
    }
  }

  lemma ReportsOn(last: Work, polls: seq<PollRun>, token: Token, polled: seq<Token>)
    requires polls != [] && |polled| < |polls|
    requires forall i :: 0 <= i < |polled| ==> ReportedAt(last, polls[1..], polled, i)
    requires token !in polled ==>
      if polls[0].end.Finished? then token !in last.tables.live
      else token in last.tables.live && last.tables.live[token] == polls[0].progress
    ensures var all := [token] + polled; forall i :: 0 <= i < |all| ==> ReportedAt(last, polls, all, i)
  {
    var all := [token] + polled;
    forall i | 0 <= i < |all|
      ensures ReportedAt(last, polls, all, i)
    {
      if i > 0 {
        assert ReportedAt(last, polls[1..], polled, i - 1);
        assert (forall j :: i < j < |all| ==> all[j] != all[i]) ==>
          forall j :: i - 1 < j < |polled| ==> polled[j] != polled[i - 1] by {
          assert forall j :: 0 <= j < |polled| ==> polled[j] == all[j + 1];
        }
      } else if forall j :: 0 < j < |all| ==> all[j] != all[0] {
        assert forall j :: 0 <= j < |polled| ==> polled[j] == all[j + 1];
        assert token !in polled;
      }
    }
  }

  // Close calls.

  /** Exactly the calls for live connections are heard, and nothing else changes. */
  lemma CallHeard(work: Work, id: ConnectionId)
    requires Good(work) && !work.tables.registry.stopping
    ensures var next := CallStep(work, id);
      && next == work.(tables := work.tables.(registry := next.tables.registry))
      && forall token <- work.tables.live ::
           Asked(next.tables, token) <==> Asked(work.tables, token) || work.tables.Id(token) == id
  {
    hide Good, Tables.Agree, Ready.Consistent;
    GoodStates(work);
    LiveEntries(work.tables);
  }

  lemma LiveEntries(tables: Tables)
    requires tables.Agree()
    ensures forall token <- tables.live ::
      tables.Id(token) in tables.registry.entries && tables.Id(token).instance == tables.registry.instance
  {
    hide Ready.Consistent, Controls.Inv;
  }

  lemma {:induction false} CallsHeard(work: Work, ids: seq<ConnectionId>)
    requires Good(work) && !work.tables.registry.stopping
    ensures var next := CallsStep(work, ids);
      && next == work.(tables := work.tables.(registry := next.tables.registry))
      && forall token <- work.tables.live ::
           Asked(next.tables, token) <==> Asked(work.tables, token) || work.tables.Id(token) in ids
    decreases |ids|
  {
    hide Good, CallStep, Asked, Leads;
    if ids != [] {
      CallHeard(work, ids[0]);
      CallLeads(work, ids[0]);
      var next := CallStep(work, ids[0]);
      NextCalls(work, next);
      CallsHeard(next, ids[1..]);
    }
  }

  lemma NextCalls(work: Work, next: Work)
    requires Leads(work, next, true)
    ensures Good(next) && next.tables.registry.stopping == work.tables.registry.stopping
  {
  }

  /** A look at the request marks retires exactly the live connections that were asked to close by then. */
  lemma CallsHonoured(work: Work, ids: seq<ConnectionId>)
    requires Good(work) && !work.tables.registry.stopping
    ensures var (next, ok) := LateRetire(work, ids);
      && (forall token <- work.tables.live :: token !in next.tables.live ==>
            && (Asked(work.tables, token) || work.tables.Id(token) in ids)
            && next.tables.registry.TicketResult(work.tables.Id(token)) == Some(Controls.RetiredByRequest))
      && (ok ==> forall token <- work.tables.live :: Asked(work.tables, token) || work.tables.Id(token) in ids ==>
            token !in next.tables.live)
      && (forall token <- next.tables.live ::
            token in work.tables.live && next.tables.live[token] == work.tables.live[token])
      && KeepsTurns(work.tables.ready, next.tables.ready, [])
  {
    hide Good, CallsStep, RetireAsked, Asked, Leads, KeepsTurns, Controls.Registry.TicketResult;
    CallsLeads(work, ids);
    CallsHeard(work, ids);
    var called := CallsStep(work, ids);
    GoodOf(work, called);
    RetireAskedLeads(called);
    AskedTurns(called);
  }

  lemma AskedTurns(work: Work)
    requires Good(work)
    ensures var next := RetireAsked(work).0;
      && KeepsTurns(work.tables.ready, next.tables.ready, [])
      && forall token <- next.tables.live ::
           token in work.tables.live && next.tables.live[token] == work.tables.live[token]
  {
    hide Good, KeepsTurns, Asked, RetireEach;
    RetireEachTurns(work, AskedTokens(work.tables), Controls.RetiredByRequest);
    RetireEachReports(work, AskedTokens(work.tables), Controls.RetiredByRequest);
  }
}
