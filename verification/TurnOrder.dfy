/** Turns are served in the order in which they were given, and none is lost. */
module TurnOrder {
  import opened Wire
  import opened Orders
  import opened ReadySet
  import opened Contention
  import opened Fairness

  /** Whoever stands in `before`, but for `gone`, stands in `after` and no further back. */
  ghost predicate Advances(before: seq<Token>, after: seq<Token>, gone: set<Token>) {
    forall token <- before :: token !in gone ==> token in after && Position(after, token) <= Position(before, token)
  }

  lemma SameAdvances(tokens: seq<Token>)
    ensures Advances(tokens, tokens, {})
  {
  }

  lemma AppendAdvances(tokens: seq<Token>, added: Token)
    requires Distinct(tokens)
    ensures Advances(tokens, Appended(tokens, added), {})
  {
    forall token | token in tokens
      ensures token in Appended(tokens, added) && Position(Appended(tokens, added), token) <= Position(tokens, token)
    {
      AppendedKeeps(tokens, added, token);
      AppendedMembers(tokens, added);
    }
  }

  lemma RemoveAdvances(tokens: seq<Token>, removed: Token)
    requires Distinct(tokens)
    ensures Advances(tokens, Without(tokens, removed), {removed})
  {
    forall token | token in tokens && token != removed
      ensures token in Without(tokens, removed)
        && Position(Without(tokens, removed), token) <= Position(tokens, token)
    {
      if removed in tokens {
        WithoutAdvances(tokens, removed, token);
      }
    }
  }

  lemma AdvancesTwice(first: seq<Token>, second: seq<Token>, third: seq<Token>, gone: set<Token>, more: set<Token>)
    requires Advances(first, second, gone) && Advances(second, third, more)
    ensures Advances(first, third, gone + more)
  {
    hide Position;
  }

  lemma EnqueueAdvances(ready: Ready, token: Token)
    requires ready.Sound()
    ensures Advances(ready.queue, Enqueue(ready, token).0.queue, {})
  {
    AppendAdvances(ready.queue, token);
    SameAdvances(ready.queue);
    hide Advances, Ready.Sound;
  }

  lemma ResumeAdvances(ready: Ready, reason: Scarce)
    requires ready.Sound()
    ensures Advances(ready.queue, ResumeHead(ready, reason).0.queue, {})
  {
    hide Advances, Ready.Sound, Enqueue;
    if ready.Waiters(reason) != [] {
      EnqueueAdvances(ready, ready.Waiters(reason)[0]);
    } else {
      SameAdvances(ready.queue);
    }
  }

  lemma LeaveAdvances(ready: Ready, token: Token, reason: Scarce)
    requires ready.Sound()
    ensures Advances(ready.queue, RemoveRequest(ready, token, reason).0.queue, {})
  {
    var waiters := ready.Waiters(reason);
    var removed := ready.WithWaiters(reason, Without(waiters, token));
    WaitersSound(ready, token, reason);
    hide Advances, Ready.Sound, ResumeHead, Without;
    ResumeAdvances(removed, reason);
    SameAdvances(ready.queue);
  }

  lemma WaitersSound(ready: Ready, token: Token, reason: Scarce)
    requires ready.Sound()
    ensures ready.WithWaiters(reason, Without(ready.Waiters(reason), token)).Sound()
  {
    WithoutMembers(ready.Waiters(reason), token);
    hide Without;
  }

  lemma RetireAdvances(ready: Ready, token: Token)
    requires ready.Consistent()
    ensures Advances(ready.queue, Retire(ready, token).0.queue, {token})
  {
    var gone := ready.(states := ready.states - {token}, queue := Without(ready.queue, token));
    RetiredSound(ready, token);
    RemoveAdvances(ready.queue, token);
    RemoveSound(gone, token, Slots);
    hide Advances, Ready.Sound, RemoveRequest, Without;
    var unslotted := RemoveRequest(gone, token, Slots).0;
    LeaveAdvances(gone, token, Slots);
    LeaveAdvances(unslotted, token, Bytes);
    AdvancesTwice(ready.queue, gone.queue, unslotted.queue, {token}, {});
    assert {token} + {} == {token};
    AdvancesTwice(ready.queue, unslotted.queue, Retire(ready, token).0.queue, {token}, {});
  }

  /** The task that is polled owns its poll, and perhaps already its next turn. */
  predicate PolledRuns(world: World) {
    world.worker.Polling? && world.worker.token in world.ready.states ==>
      var state := world.ready.states[world.worker.token];
      state.Running? || state.Notified?
  }

  lemma PolledStep(world: World, step: Step)
    requires Inv(world) && PolledRuns(world)
    ensures PolledRuns(Next(world, step))
  {
    hide Served, Ready.Consistent;
    if world.worker.Polling? && world.worker.token in world.ready.states {
      PolledPoll(world, step);
    }
  }

  lemma PolledPoll(world: World, step: Step)
    requires Inv(world) && PolledRuns(world)
    requires world.worker.Polling? && world.worker.token in world.ready.states
    ensures PolledRuns(Next(world, step))
  {
    hide Served, Ready.Consistent, Without, Appended, Retire, Park;
  }

  /** The turns that a step takes away: the one it serves, or those of a task that it retires. */
  function Consumed(world: World, step: Step): set<Token> {
    if world.worker.Idle? then
      if step.TakeNext? && world.ready.queue != [] then {world.ready.queue[0]}
      else if step.RetireTask? then {step.token}
      else {}
    else if world.worker.Polling? && world.worker.phase.Free? && step.Complete?
         && world.worker.token !in world.requests then {world.worker.token}
    else {}
  }

  lemma TakeAdvances(ready: Ready)
    requires ready.Sound() && ready.queue != []
    ensures Advances(ready.queue, Take(ready).0.queue, {ready.queue[0]})
    ensures forall token <- ready.queue :: token != ready.queue[0] ==>
      token in Take(ready).0.queue && Position(Take(ready).0.queue, token) < Position(ready.queue, token)
  {
    var queue := ready.queue;
    forall token | token in queue && token != queue[0]
      ensures token in queue[1..] && Position(queue[1..], token) < Position(queue, token)
    {
      assert queue == [queue[0]] + queue[1..];
    }
  }

  lemma ParkAdvances(world: World, reason: WaitReason)
    requires Inv(world) && PolledRuns(world) && world.worker.Polling?
    ensures Park(world.ready, world.worker.token, reason).queue == world.ready.queue
  {
    hide Contention.Served, Without, Appended, Distinct;
    WithoutNone(world.ready.queue, world.worker.token);
  }

  lemma WithoutNone(tokens: seq<Token>, token: Token)
    ensures token !in tokens ==> Without(tokens, token) == tokens
  {
  }

  lemma IdleAdvances(world: World, step: Step)
    requires Inv(world) && world.worker.Idle?
    ensures Advances(world.ready.queue, IdleStep(world, step).ready.queue, Consumed(world, step))
  {
    SameAdvances(world.ready.queue);
    hide Advances, Contention.Served, Without, Appended, Retire, Ready.Live;
    match step
    case TakeNext =>
      if world.ready.queue != [] { TakeAdvances(world.ready); }
    case Admit(token) => AppendAdvances(world.ready.queue, token);
    case RetireTask(token) => RetireAdvances(world.ready, token);
    case IoEvent(token) => EnqueueAdvances(world.ready, token);
    case _ =>
  }

  lemma PollAdvances(world: World, step: Step)
    requires Inv(world) && PolledRuns(world) && world.worker.Polling?
    ensures Advances(world.ready.queue, PollStep(world, world.worker.token, world.worker.phase, step).ready.queue,
                     Consumed(world, step))
  {
    InvSound(world);
    hide Inv, Advances, PollStep, PolledRuns, Ready.Sound, Ready.Consistent;
    if world.worker.token in world.requests {
      AskedAdvances(world, step);
    } else {
      UnaskedAdvances(world, step);
    }
  }

  lemma UnaskedAdvances(world: World, step: Step)
    requires Inv(world) && PolledRuns(world) && world.worker.Polling? && world.worker.token !in world.requests
    requires world.worker.token in world.ready.states
    ensures Advances(world.ready.queue, PollStep(world, world.worker.token, world.worker.phase, step).ready.queue,
                     Consumed(world, step))
  {
    InvSound(world);
    SameAdvances(world.ready.queue);
    hide Inv, Advances, Without, Appended, Retire, Park, RemoveRequest, Enqueue, Ready.Sound, Ready.Consistent;
    hide PolledRuns, Possible;
    match step
    case ParkKernel => ParkAdvances(world, Kernel);
    case Yield => EnqueueAdvances(world.ready, world.worker.token);
    case Complete => RetireAdvances(world.ready, world.worker.token);
    case _ =>
  }

  lemma AskedAdvances(world: World, step: Step)
    requires Inv(world) && PolledRuns(world) && world.worker.Polling? && world.worker.token in world.requests
    requires world.worker.token in world.ready.states
    ensures Advances(world.ready.queue, PollStep(world, world.worker.token, world.worker.phase, step).ready.queue, {})
  {
    InvSound(world);
    hide Inv, Advances, Without, Appended, Retire, Park, RemoveRequest, Enqueue, Ready.Sound, Ready.Consistent;
    var token := world.worker.token;
    SameAdvances(world.ready.queue);
    EnqueueAdvances(world.ready, token);
    LeaveAdvances(world.ready, token, world.requests[token].reason);
    ParkAdvances(world, world.requests[token].reason);
  }

  lemma InvSound(world: World)
    requires Inv(world)
    ensures world.ready.Consistent() && world.ready.Sound()
    ensures world.worker.Polling? ==> world.worker.token in world.ready.states
  {
  }

  /** No step moves a turn back, and only its own service or the end of its task takes one away. */
  lemma StepAdvances(world: World, step: Step)
    requires Inv(world) && PolledRuns(world)
    ensures Advances(world.ready.queue, Next(world, step).ready.queue, Consumed(world, step))
  {
    SameAdvances(world.ready.queue);
    hide Advances, Contention.Served, Without, Appended, Retire, Park, RemoveRequest, PollStep, IdleStep;
    match step
    case Wake(token) => EnqueueAdvances(world.ready, token);
    case Release(_, _) =>
    case Publish(_) =>
    case ExternalCopy(_) =>
    case _ =>
      match world.worker
      case Idle => IdleAdvances(world, step);
      case Resuming(reason) => ResumeAdvances(world.ready, reason);
      case Polling(token, phase) => PollAdvances(world, step);
  }

  /** A task that owns a turn owns it until it is polled for it or retired: no wake is lost, whatever happens. */
  lemma TurnKept(initial: World, steps: seq<Step>, step: Step, token: Token)
    requires Initial(initial) && Run(initial, steps).ready.Runnable(token)
    ensures var world := Run(initial, steps);
      Next(world, step).ready.Runnable(token) || token in Consumed(world, step)
  {
    hide Next, Inv, Run, Consumed;
    RunPolled(initial, steps);
    var world := Run(initial, steps);
    NextInv(world, step);
    StepAdvances(world, step);
    InvSound(world);
    InvSound(Next(world, step));
  }

  lemma {:induction false} RunPolled(initial: World, steps: seq<Step>)
    requires Initial(initial)
    ensures Inv(Run(initial, steps)) && PolledRuns(Run(initial, steps))
    decreases |steps|
  {
    RunInv(initial, steps);
    hide Inv, Next;
    if steps != [] {
      RunPolled(initial, steps[..|steps| - 1]);
      PolledStep(Run(initial, steps[..|steps| - 1]), steps[|steps| - 1]);
    }
  }

  /** A wake of a live task gives it a turn, also while it is being polled. */
  lemma WakeGivesTurn(initial: World, steps: seq<Step>, token: Token)
    requires Initial(initial) && token in Run(initial, steps).ready.states
    ensures Next(Run(initial, steps), Wake(token)).ready.Runnable(token)
  {
    RunInv(initial, steps);
    hide Run;
    EnqueueSound(Run(initial, steps).ready, token);
  }

  /** A task that is admitted owns a turn at once, behind all others. */
  lemma AdmissionGivesTurn(initial: World, steps: seq<Step>, token: Token)
    requires Initial(initial)
    requires var world := Run(initial, steps);
      world.worker.Idle? && token !in world.ready.states && |world.ready.states| < world.ready.capacity
    ensures var world := Run(initial, steps);
      var after := Next(world, Admit(token));
      after.ready.Runnable(token) && after.ready.queue == world.ready.queue + [token]
  {
    RunInv(initial, steps);
    hide Run;
    InsertConsistent(Run(initial, steps).ready, token);
  }

  /** A task that waits for its socket sleeps until an event, which gives it a turn; a wake before that is kept. */
  lemma SleepsUntilEvent(initial: World, steps: seq<Step>, token: Token)
    requires Initial(initial)
    requires var world := Run(initial, steps);
      world.worker == Polling(token, Free) && token in world.ready.states && token !in world.requests
    ensures var world := Run(initial, steps);
      var parked := Next(world, ParkKernel);
      && parked.worker.Idle? && token in parked.ready.states
      && (if world.ready.Runnable(token) then parked.ready.states[token] == Queued
          else parked.ready.states[token] == Waiting(Kernel) && Next(parked, IoEvent(token)).ready.Runnable(token))
  {
    hide Run, Served, Park, Enqueue, Ready.Sound, Registered;
    RunPolled(initial, steps);
    var world := Run(initial, steps);
    ParkConsistent(world.ready, token, Kernel);
    EnqueueSound(Next(world, ParkKernel).ready, token);
  }

  /** A task that used up its budget owns another turn, and keeps its request if it has one. */
  lemma YieldKeepsTurn(initial: World, steps: seq<Step>, token: Token)
    requires Initial(initial) && Run(initial, steps).worker == Polling(token, Free)
    requires token in Run(initial, steps).ready.states
    ensures var world := Run(initial, steps);
      var after := Next(world, Yield);
      && after.worker.Idle? && after.ready.Runnable(token) && after.requests == world.requests
      && after.ready.slotWaiters == world.ready.slotWaiters && after.ready.byteWaiters == world.ready.byteWaiters
  {
    RunInv(initial, steps);
    hide Run, Served, Enqueue, Ready.Sound;
    EnqueueSound(Run(initial, steps).ready, token);
  }

  /** A task that ends, or that is retired between polls, is nowhere any more; all others stay. */
  lemma EndedIsGone(initial: World, steps: seq<Step>, token: Token)
    requires Initial(initial)
    requires var world := Run(initial, steps);
      world.worker.Idle? || (world.worker == Polling(token, Free) && token !in world.requests)
    ensures var world := Run(initial, steps);
      var after := Next(world, if world.worker.Idle? then RetireTask(token) else Complete);
      && after.worker.Idle? && after.ready.states.Keys == world.ready.states.Keys - {token}
      && token !in after.requests && token !in after.ready.queue
      && token !in after.ready.slotWaiters && token !in after.ready.byteWaiters
      && after.slots == world.slots && after.bytes == world.bytes
  {
    hide Run, Served, Retire, Ready.Sound;
    RunInv(initial, steps);
    var world := Run(initial, steps);
    RetiredNowhere(world.ready, token);
  }

  lemma RetiredNowhere(ready: Ready, token: Token)
    requires ready.Consistent()
    ensures var after := Retire(ready, token).0;
      && after.states.Keys == ready.states.Keys - {token}
      && token !in after.queue && token !in after.slotWaiters && token !in after.byteWaiters
  {
    hide Retire, Without;
    RetireConsistent(ready, token);
    WithoutMembers(ready.slotWaiters, token);
    WithoutMembers(ready.byteWaiters, token);
    var after := Retire(ready, token).0;
    assert after.Waiters(Slots) == Without(ready.slotWaiters, token);
    assert after.Waiters(Bytes) == Without(ready.byteWaiters, token);
  }

  /** Others copy what fits and never more. */
  lemma OutsideCopyFits(initial: World, steps: seq<Step>, amount: nat)
    requires Initial(initial)
    ensures var world := Run(initial, steps);
      var after := Next(world, ExternalCopy(amount));
      && after.bytes.used <= after.bytes.capacity
      && (after.bytes.used == world.bytes.used + amount || (after == world && !world.bytes.Fits(amount)))
  {
    RunInv(initial, steps);
    hide Run, Served, Ready.Consistent;
  }

  /** A retirement says truly whether it gave another task a turn. */
  lemma RetireTellsTurn(ready: Ready, token: Token)
    requires ready.Consistent()
    ensures var (next, woke) := Retire(ready, token);
      woke <==> |next.queue| > |Without(ready.queue, token)|
  {
    hide Ready.Sound, Without, RemoveRequest;
    var gone := ready.(states := ready.states - {token}, queue := Without(ready.queue, token));
    RetiredSound(ready, token);
    RemoveSound(gone, token, Slots);
    LeaveTellsTurn(gone, token, Slots);
    LeaveTellsTurn(RemoveRequest(gone, token, Slots).0, token, Bytes);
  }

  lemma LeaveTellsTurn(ready: Ready, token: Token, reason: Scarce)
    requires ready.Sound()
    ensures var (next, woke) := RemoveRequest(ready, token, reason);
      |next.queue| >= |ready.queue| && (woke <==> |next.queue| > |ready.queue|)
  {
  }

  /** The worker takes a task from the run queue. */
  predicate Serves(world: World, step: Step) {
    world.worker.Idle? && step.TakeNext? && world.ready.queue != []
  }

  /** How many turns the worker serves from step `from` on. */
  function ServedFrom(initial: World, steps: seq<Step>, from: nat): nat
    requires from <= |steps|
    decreases |steps|
  {
    if from == |steps| then 0
    else
      var before := steps[..|steps| - 1];
      ServedFrom(initial, before, from) + if Serves(Run(initial, before), steps[|steps| - 1]) then 1 else 0
  }

  /** A task that stands in the run queue and was not polled since step `from`. */
  predicate StandsThroughout(initial: World, steps: seq<Step>, from: nat, token: Token)
    requires from <= |steps|
  {
    forall i :: from <= i <= |steps| ==> token in Run(initial, steps[..i]).ready.queue
  }

  /** One more step while a task stands in the queue: each turn that is served moves it up. */
  lemma StandsOn(world: World, step: Step, token: Token)
    requires Inv(world) && PolledRuns(world)
    requires token in world.ready.queue && token in Next(world, step).ready.queue
    ensures Position(Next(world, step).ready.queue, token)
      + (if Serves(world, step) then 1 else 0) <= Position(world.ready.queue, token)
  {
    InvSound(world);
    StepAdvances(world, step);
    if Serves(world, step) {
      TakeAdvances(world.ready);
      hide Inv, Position, Advances;
      assert Next(world, step).ready == Take(world.ready).0;
      TakenLeaves(world.ready);
    } else {
      hide Inv, Position, Next;
      if token in Consumed(world, step) {
        ConsumedLeaves(world, step, token);
      }
    }
  }

  lemma TakenLeaves(ready: Ready)
    requires ready.Sound() && ready.queue != []
    ensures ready.queue[0] !in Take(ready).0.queue
  {
  }

  /** A task that is retired stands in no queue. */
  lemma ConsumedLeaves(world: World, step: Step, token: Token)
    requires Inv(world) && PolledRuns(world) && !Serves(world, step) && token in Consumed(world, step)
    ensures token !in Next(world, step).ready.queue
  {
    InvSound(world);
    RetiredLeaves(world.ready, token);
    hide Inv, PolledRuns, Retire, Ready.Consistent, Ready.Sound;
  }

  lemma RetiredLeaves(ready: Ready, token: Token)
    requires ready.Consistent()
    ensures token !in Retire(ready, token).0.queue
  {
    RetireConsistent(ready, token);
    hide Without, Retire;
  }

  /**
   * Turns come in order and within bounds: while a task waits in the run queue, every turn that the worker serves
   * moves it up by one at least, so it is polled after at most as many turns as stood before it.
   */
  lemma {:induction false} TurnComes(initial: World, steps: seq<Step>, from: nat, token: Token)
    requires Initial(initial) && from <= |steps| && StandsThroughout(initial, steps, from, token)
    ensures token in Run(initial, steps[..from]).ready.queue && token in Run(initial, steps).ready.queue
    ensures Position(Run(initial, steps).ready.queue, token) + ServedFrom(initial, steps, from)
      <= Position(Run(initial, steps[..from]).ready.queue, token)
    decreases |steps|
  {
    hide Inv, Next, Position, Serves;
    assert steps[..|steps|] == steps;
    if from == |steps| {
      assert steps[..from] == steps;
    } else {
      var before := steps[..|steps| - 1];
      assert forall i :: from <= i <= |before| ==> steps[..i] == before[..i];
      assert before[..|before|] == before;
      TurnComes(initial, before, from, token);
      RunPolled(initial, before);
      StandsOn(Run(initial, before), steps[|steps| - 1], token);
    }
  }
}
