/** What every run of the contention model guarantees: no lost wakeup, and admission in order of request. */
module Fairness {
  import opened Wire
  import opened Orders
  import opened ReadySet
  import opened Contention

  /** A worker that starts over a record channel and a byte account which others may already be using. */
  predicate Initial(world: World) {
    && world.ready.states == map[] && world.requests == map[]
    && world.ready.queue == world.ready.slotWaiters == world.ready.byteWaiters == []
    && world.worker.Idle?
    && world.slots.used <= world.slots.capacity && world.bytes.used <= world.bytes.capacity
  }

  function Run(initial: World, steps: seq<Step>): World {
    if steps == [] then initial
    else Next(Run(initial, steps[..|steps| - 1]), steps[|steps| - 1])
  }

  lemma {:induction false} RunInv(initial: World, steps: seq<Step>)
    requires Initial(initial)
    ensures Inv(Run(initial, steps))
    decreases |steps|
  {
    if steps != [] {
      hide Inv, Next;
      RunInv(initial, steps[..|steps| - 1]);
      NextInv(Run(initial, steps[..|steps| - 1]), steps[|steps| - 1]);
    }
  }

  /** The oldest request sleeps although its resource would fit. */
  predicate Starving(world: World, reason: Scarce) {
    var waiters := world.ready.Waiters(reason);
    && waiters != [] && waiters[0] in world.requests
    && world.ready.Parked(waiters[0])
    && world.Of(reason).Fits(world.requests[waiters[0]].amount)
  }

  /** All releases that are still unannounced get announced. */
  function PublishAll(world: World, reason: Scarce): (next: World)
    ensures next == world.With(reason, next.Of(reason))
    ensures next.Of(reason).unpublished == 0
    ensures next.Of(reason).used == world.Of(reason).used && next.Of(reason).capacity == world.Of(reason).capacity
    ensures next.Of(reason).credit <==> world.Of(reason).credit || world.Of(reason).unpublished > 0
    decreases world.Of(reason).unpublished
  {
    if world.Of(reason).unpublished == 0 then world else PublishAll(Next(world, Publish(reason)), reason)
  }

  /**
   * No lost wakeup: in every reachable state, a sleeping head that would fit has its credit set, or about
   * to be set by a releasing thread, or just taken by the worker.
   */
  lemma {:induction false} NoLostWakeup(initial: World, steps: seq<Step>, reason: Scarce)
    requires Initial(initial) && Starving(Run(initial, steps), reason)
    ensures Covered(Run(initial, steps), reason)
  {
    hide Next;
    RunInv(initial, steps);
  }

  /**
   * The wakeup is delivered by the worker alone: once pending releases are announced, draining the credit
   * gives the head its turn, with no network event and no further release.
   */
  lemma {:induction false} DrainRunsHead(initial: World, steps: seq<Step>, reason: Scarce)
    requires Initial(initial) && Starving(Run(initial, steps), reason)
    requires Run(initial, steps).worker.Idle?
    ensures var world := Run(initial, steps);
      var drained := Next(Next(PublishAll(world, reason), DrainCredit(reason)), ResumeCredit);
      drained.ready.Runnable(world.ready.Waiters(reason)[0]) && drained.worker.Idle?
  {
    RunInv(initial, steps);
    var world := Run(initial, steps);
    var published := PublishAll(world, reason);
    assert published.Of(reason).credit;
    var taken := Next(published, DrainCredit(reason));
    assert taken.worker == Resuming(reason) && taken.ready == world.ready;
    ResumeSound(world.ready, reason);
  }

  /** A grant takes capacity for the polled task. */
  predicate Grants(world: World, step: Step, token: Token) {
    && step.Attempt? && world.worker == Polling(token, Attempting) && token in world.requests
    && world.Of(world.requests[token].reason).Fits(world.requests[token].amount)
  }

  /** Only the oldest request is ever granted, and a grant stays within capacity. */
  lemma OnlyHeadGranted(initial: World, steps: seq<Step>, step: Step, token: Token)
    requires Initial(initial) && Grants(Run(initial, steps), step, token)
    ensures var world := Run(initial, steps);
      var Request(reason, amount) := world.requests[token];
      && First(world.ready.Waiters(reason)) == Some(token)
      && Next(world, step).Of(reason).used == world.Of(reason).used + amount <= world.Of(reason).capacity
  {
    RunInv(initial, steps);
  }

  /** A task that asks for what is free, with nobody before it, gets it in the same poll and leaves no request. */
  lemma FreeRequestGranted(initial: World, steps: seq<Step>, request: Request)
    requires Initial(initial)
    requires var world := Run(initial, steps);
      && world.worker.Polling? && world.worker.phase.Free? && world.worker.token !in world.requests
      && Possible(world, request) && world.ready.Waiters(request.reason) == []
      && world.Of(request.reason).Fits(request.amount)
    ensures var world := Run(initial, steps);
      var granted := Next(Next(Next(Next(world, Begin(request)), Ask), Attempt), FinishRequest);
      && granted.worker == world.worker && granted.requests == world.requests
      && granted.Of(request.reason).used == world.Of(request.reason).used + request.amount
      && granted.ready.Waiters(request.reason) == []
  {
    hide Run, Served, Ready.Consistent, RequestTurn, Next, Registered;
    RunInv(initial, steps);
    var world, token := Run(initial, steps), Run(initial, steps).worker.token;
    JoinsFirst(world, token, request);
    TakesAndLeaves(Next(Next(world, Begin(request)), Ask), token);
    assert world.requests[token := request] - {token} == world.requests;
  }

  /** A request that finds an empty order stands first and may be attempted. */
  lemma JoinsFirst(world: World, token: Token, request: Request)
    requires world.worker == Polling(token, Free) && token in world.ready.states && token !in world.requests
    requires Possible(world, request) && world.ready.Waiters(request.reason) == []
    ensures var asked := Next(Next(world, Begin(request)), Ask);
      && asked.worker == Polling(token, Attempting) && token in asked.ready.states
      && asked.ready.Waiters(request.reason) == [token]
      && asked.requests == world.requests[token := request]
      && asked.slots == world.slots && asked.bytes == world.bytes
  {
  }

  /** A granted request that was alone leaves its order empty. */
  lemma TakesAndLeaves(world: World, token: Token)
    requires world.worker == Polling(token, Attempting) && token in world.ready.states && token in world.requests
    requires world.ready.Waiters(world.requests[token].reason) == [token]
    requires world.Of(world.requests[token].reason).Fits(world.requests[token].amount)
    ensures var Request(reason, amount) := world.requests[token];
      var granted := Next(Next(world, Attempt), FinishRequest);
      && granted.worker == Polling(token, Free) && granted.requests == world.requests - {token}
      && granted.Of(reason).used == world.Of(reason).used + amount && granted.ready.Waiters(reason) == []
  {
  }

  /** A task that asks for more than is free takes nothing: it sleeps in the order until it is woken. */
  lemma FullRequestWaits(initial: World, steps: seq<Step>, token: Token)
    requires Initial(initial)
    requires var world := Run(initial, steps);
      && world.worker == Polling(token, Attempting) && token in world.requests
      && token in world.ready.states && world.ready.states[token].Running?
      && !world.Of(world.requests[token].reason).Fits(world.requests[token].amount)
    ensures var world := Run(initial, steps);
      var waiting := Next(Next(world, Attempt), ParkRequest);
      && waiting.slots == world.slots && waiting.bytes == world.bytes && waiting.requests == world.requests
      && waiting.worker.Idle? && waiting.ready.Parked(token)
      && waiting.ready.states[token] == Waiting(world.requests[token].reason)
      && token in waiting.ready.Waiters(world.requests[token].reason)
  {
    hide Run, Served, Park, Ready.Sound, Appended, Distinct;
    RunInv(initial, steps);
    var world := Run(initial, steps);
    AttemptsFirst(world, token);
    ParkConsistent(world.ready, token, world.requests[token].reason);
    AppendedMembers(world.ready.Waiters(world.requests[token].reason), token);
  }

  lemma AttemptsFirst(world: World, token: Token)
    requires Inv(world) && world.worker == Polling(token, Attempting)
    ensures var waiters := world.ready.Waiters(world.requests[token].reason);
      && waiters != [] && waiters[0] == token && Distinct(waiters)
      && forall other <- waiters :: other in world.ready.states && other in world.requests
  {
    hide Served;
  }

  /** A task that gives up its request takes nothing and hands the order on. */
  lemma GivenUpPassesOn(initial: World, steps: seq<Step>, token: Token)
    requires Initial(initial)
    requires Run(initial, steps).worker == Polling(token, Attempting)
    ensures var world := Run(initial, steps);
      token in world.requests
      && var reason := world.requests[token].reason;
         var gone := Next(Next(world, GiveUp), FinishRequest);
         && gone.slots == world.slots && gone.bytes == world.bytes && gone.requests == world.requests - {token}
         && world.ready.Waiters(reason) == [token] + gone.ready.Waiters(reason)
         && (gone.ready.Waiters(reason) != [] ==> gone.ready.Runnable(gone.ready.Waiters(reason)[0]))
  {
    hide Run, Served, RemoveRequest, Ready.Sound, Distinct;
    RunInv(initial, steps);
    AttemptsFirst(Run(initial, steps), token);
    var world := Run(initial, steps);
    RemoveSound(world.ready, token, world.requests[token].reason);
  }

  /** The three things a step can do to an order. */
  predicate Changes(before: seq<Token>, after: seq<Token>, token: Token) {
    after == before || after == Appended(before, token) || after == Without(before, token)
  }

  /** The token whose place a step can change. */
  function Subject(world: World, step: Step): Token {
    if world.worker.Polling? then world.worker.token else if step.RetireTask? then step.token else 0
  }

  lemma FinishOrder(world: World, token: Token, own: Scarce, reason: Scarce)
    requires world.ready.Consistent()
    ensures Changes(world.ready.Waiters(reason), RemoveRequest(world.ready, token, own).0.Waiters(reason), token)
  {
    RemoveSound(world.ready, token, own);
    hide Without, RemoveRequest, Ready.Sound;
  }

  lemma RetireOrder(world: World, token: Token, reason: Scarce)
    requires world.ready.Consistent()
    ensures Changes(world.ready.Waiters(reason), Retire(world.ready, token).0.Waiters(reason), token)
  {
    RetireConsistent(world.ready, token);
    hide Without, Retire, Ready.Sound;
  }

  lemma IdleOrder(world: World, step: Step, reason: Scarce)
    requires world.ready.Consistent() && world.worker.Idle?
    ensures Changes(world.ready.Waiters(reason), IdleStep(world, step).ready.Waiters(reason), Subject(world, step))
  {
    if step.RetireTask? {
      RetireOrder(world, step.token, reason);
    }
    hide Without, Retire, Ready.Consistent, Appended;
  }

  lemma BlockOrders(ready: Ready, token: Token, own: WaitReason, reason: Scarce)
    ensures Enqueue(ready, token).0.Waiters(reason) == ready.Waiters(reason)
    ensures token in ready.states ==> Changes(ready.Waiters(reason), Park(ready, token, own).Waiters(reason), token)
    ensures !own.Kernel? ==> Changes(ready.Waiters(reason), RequestTurn(ready, token, own).0.Waiters(reason), token)
  {
    hide Without, Appended;
  }

  lemma PollOrder(world: World, step: Step, reason: Scarce)
    requires world.ready.Consistent() && world.worker.Polling? && world.worker.token in world.ready.states
    ensures Changes(world.ready.Waiters(reason),
                    PollStep(world, world.worker.token, world.worker.phase, step).ready.Waiters(reason),
                    world.worker.token)
  {
    hide Without, Retire, RemoveRequest, Ready.Consistent, Appended, Enqueue, Park, RequestTurn, Ready.Waiters;
    var token := world.worker.token;
    var own: WaitReason := if token in world.requests then world.requests[token].reason else Kernel;
    BlockOrders(world.ready, token, own, reason);
    if step.Complete? {
      RetireOrder(world, token, reason);
    } else if step.FinishRequest? && token in world.requests {
      FinishOrder(world, token, own, reason);
    }
  }

  /** An order only grows at its end and only loses members. */
  lemma OrderStep(world: World, step: Step, reason: Scarce)
    requires world.ready.Consistent()
    ensures Changes(world.ready.Waiters(reason), Next(world, step).ready.Waiters(reason), Subject(world, step))
  {
    hide Ready.Consistent, IdleStep, PollStep, Appended, Without;
    if world.worker.Idle? {
      IdleOrder(world, step, reason);
    } else if world.worker.Polling? && world.worker.token in world.ready.states {
      PollOrder(world, step, reason);
    }
  }

  /** A waiting request never moves back; when a member in front leaves, it moves up. */
  lemma PositionNeverGrows(world: World, step: Step, reason: Scarce, token: Token)
    requires Inv(world)
    requires token in world.ready.Waiters(reason) && token in Next(world, step).ready.Waiters(reason)
    ensures var before, after := world.ready.Waiters(reason), Next(world, step).ready.Waiters(reason);
      && Position(after, token) <= Position(before, token)
      && forall other :: other in before && other !in after && Position(before, other) < Position(before, token) ==>
           Position(after, token) < Position(before, token)
  {
    var before, after := world.ready.Waiters(reason), Next(world, step).ready.Waiters(reason);
    assert Distinct(before);
    OrderStep(world, step, reason);
    hide Next, Inv;
    if after != before {
      var changed := Subject(world, step);
      WithoutMembers(before, changed);
      AppendedMembers(before, changed);
      if after == Appended(before, changed) {
        AppendedKeeps(before, changed, token);
      } else if changed in before {
        WithoutAdvances(before, changed, token);
      }
    }
  }

  /** `older` stands in the order and `younger` does not stand before it. */
  predicate Outranks(waiters: seq<Token>, older: Token, younger: Token) {
    older in waiters && (younger in waiters ==> Position(waiters, older) < Position(waiters, younger))
  }

  lemma OutranksStep(world: World, step: Step, reason: Scarce, older: Token, younger: Token)
    requires Inv(world)
    requires Outranks(world.ready.Waiters(reason), older, younger)
    requires older in Next(world, step).ready.Waiters(reason)
    ensures Outranks(Next(world, step).ready.Waiters(reason), older, younger)
  {
    var before, after := world.ready.Waiters(reason), Next(world, step).ready.Waiters(reason);
    assert Distinct(before);
    OrderStep(world, step, reason);
    hide Next, Inv;
    if after != before {
      var changed := Subject(world, step);
      WithoutMembers(before, changed);
      AppendedMembers(before, changed);
      if after == Appended(before, changed) {
        AppendedKeeps(before, changed, older);
        if younger in before {
          AppendedKeeps(before, changed, younger);
        } else if younger in after {
          PositionUnique(after, |before|);
        }
      } else if changed in before {
        WithoutAdvances(before, changed, older);
        if younger in after {
          WithoutAdvances(before, changed, younger);
        }
      }
    }
  }

  /** The states that a run passes through after a prefix of it. */
  predicate WaitsThroughout(initial: World, steps: seq<Step>, from: nat, reason: Scarce, token: Token)
    requires from <= |steps|
  {
    forall i :: from <= i <= |steps| ==> token in Run(initial, steps[..i]).ready.Waiters(reason)
  }

  lemma {:induction false} OutranksThroughout(initial: World, steps: seq<Step>, from: nat, reason: Scarce,
                                              older: Token, younger: Token)
    requires Initial(initial) && from <= |steps|
    requires WaitsThroughout(initial, steps, from, reason, older)
    requires Outranks(Run(initial, steps[..from]).ready.Waiters(reason), older, younger)
    ensures Outranks(Run(initial, steps).ready.Waiters(reason), older, younger)
    decreases |steps|
  {
    hide Next, Inv, Outranks;
    if from == |steps| {
      assert steps[..from] == steps;
    } else {
      var before := steps[..|steps| - 1];
      assert steps[..from] == before[..from];
      assert forall i :: from <= i <= |before| ==> steps[..i] == before[..i];
      assert steps[..|steps|] == steps;
      OutranksThroughout(initial, before, from, reason, older, younger);
      RunInv(initial, before);
      OutranksStep(Run(initial, before), steps[|steps| - 1], reason, older, younger);
    }
  }

  /**
   * No bypass over a whole run: while an older request is neither granted nor cancelled, no request that
   * joined behind it, or joins later, is granted.
   */
  lemma {:induction false} NoOvertaking(initial: World, steps: seq<Step>, from: nat, reason: Scarce,
                                        older: Token, younger: Token, step: Step)
    requires Initial(initial) && from <= |steps|
    requires WaitsThroughout(initial, steps, from, reason, older)
    requires Outranks(Run(initial, steps[..from]).ready.Waiters(reason), older, younger)
    requires Grants(Run(initial, steps), step, younger)
    ensures Run(initial, steps).requests[younger].reason != reason
  {
    hide Next;
    OutranksThroughout(initial, steps, from, reason, older, younger);
    if Run(initial, steps).requests[younger].reason == reason {
      OnlyHeadGranted(initial, steps, step, younger);
    }
  }

  /** The worker's own assertions: a poll that ended pending named a wait or a turn, and a wake finds room. */
  lemma PollsSettle(initial: World, steps: seq<Step>, step: Step)
    requires Initial(initial)
    ensures var world := Run(initial, steps);
      && (world.worker.Polling? && Next(world, step).worker.Idle? ==>
            world.worker.token !in Next(world, step).ready.states
            || !Next(world, step).ready.states[world.worker.token].Running?)
      && (forall token :: token in world.ready.states && !world.ready.Runnable(token) ==>
            |world.ready.queue| < world.ready.capacity)
  {
    var world := Run(initial, steps);
    RunInv(initial, steps);
    NextInv(world, step);
    forall token | token in world.ready.states && !world.ready.Runnable(token)
      ensures |world.ready.queue| < world.ready.capacity
    {
      RoomInQueue(world.ready, token);
    }
    hide Next;
  }
}
