/** The contended resources are the record channel and the byte account: each wakeup promise is about them. */
module Sharing {
  import opened Wire
  import opened Records
  import opened Orders
  import opened ReadySet
  import opened Contention
  import Fairness
  import Handoff
  import Memory

  /** Worker and tasks, with the channel and the account they share. */
  datatype System = System(world: World, channel: Handoff.Channel, ledger: Memory.Ledger)

  datatype SystemStep =
    // Steps of the worker and of wakes that touch neither resource.
    | Inner(step: Step)
    // The attempt of the task that is being polled.
    | Sends(record: Record)
    | Copies(owner: Option<ConnectionId>)
    // The consumer.
    | Takes
    | Announces
    // Owners of copied bytes, and copies by others.
    | CopiesOutside(bytes: nat)
    | Tracks(charge: nat)
    | Untracks(charge: nat)
    | Releases(charge: nat)
    | PublishesBytes

  predicate TouchesResource(step: Step) {
    step.Attempt? || step.Release? || step.Publish? || step.ExternalCopy?
  }

  /** The polled task attempts its request for `reason`. */
  predicate Attempts(world: World, reason: Scarce) {
    && world.worker.Polling? && world.worker.phase.Attempting? && world.worker.token in world.ready.states
    && world.worker.token in world.requests && world.requests[world.worker.token].reason == reason
  }

  /** Each step acts on the channel or the account by its own rules, and on the contention by its own. */
  function SystemNext(system: System, step: SystemStep): System {
    var System(world, channel, ledger) := system;
    match step
    case Inner(inner) =>
      if TouchesResource(inner) then system else system.(world := Next(world, inner))
    case Sends(record) =>
      if !Attempts(world, Slots) then system
      else system.(world := Next(world, Attempt), channel := Handoff.TrySend(channel, record).0)
    case Copies(owner) =>
      if !Attempts(world, Bytes) then system
      else system.(world := Next(world, Attempt),
                   ledger := Charged(ledger, Memory.Reserve(world.requests[world.worker.token].amount, owner)))
    case Takes =>
      if channel.queue == [] then system
      else system.(world := Next(world, Release(Slots, 1)), channel := Handoff.Remove(channel).0)
    case Announces =>
      system.(world := Next(world, Publish(Slots)), channel := Handoff.Announce(channel))
    case CopiesOutside(bytes) =>
      system.(world := Next(world, ExternalCopy(bytes)), ledger := Charged(ledger, Memory.Reserve(bytes, None)))
    case Tracks(charge) => system.(ledger := Charged(ledger, Memory.Track(charge)))
    case Untracks(charge) => system.(ledger := Charged(ledger, Memory.Untrack(charge)))
    case Releases(charge) =>
      if !Memory.At(ledger, charge, Memory.Untracked) then system
      else system.(world := Next(world, Release(Bytes, ledger.charges[charge].bytes)),
                   ledger := Charged(ledger, Memory.Release(charge)))
    case PublishesBytes => system.(world := Next(world, Publish(Bytes)))
  }

  /** A panic leaves the account as it is; in a conserved ledger there is none. */
  function Charged(ledger: Memory.Ledger, step: Memory.Step): Memory.Ledger {
    match Memory.Next(ledger, step)
    case Some(next) => next
    case None => ledger
  }

  /** The counts of the contention are the length of the queue and the bytes in use. */
  predicate Represents(system: System) {
    var System(world, channel, ledger) := system;
    && world.slots.capacity == channel.capacity && world.slots.used == |channel.queue|
    && world.slots.unpublished == channel.unannounced && channel.consumerAlive
    && world.bytes.capacity == ledger.capacity && world.bytes.used == ledger.used
  }

  ghost predicate SystemInv(system: System) {
    Represents(system) && Inv(system.world) && Memory.Conserved(system.ledger)
  }

  /** What the channel and the account answer is what the contention grants. */
  lemma GrantsAgree(system: System, record: Record)
    requires SystemInv(system) && system.world.worker.Polling?
    ensures Attempts(system.world, Slots) ==>
      (Handoff.TrySend(system.channel, record).1.Accepted?
       <==> system.world.slots.Fits(system.world.requests[system.world.worker.token].amount))
    ensures Attempts(system.world, Bytes) ==>
      var amount := system.world.requests[system.world.worker.token].amount;
      amount <= system.ledger.capacity - system.ledger.used <==> system.world.bytes.Fits(amount)
  {
    hide Ready.Consistent, Served, Memory.Conserved;
  }

  /** A send that finds room is in the queue and leaves its order; one that finds none changes nothing and sleeps. */
  lemma SendActs(system: System, record: Record)
    requires SystemInv(system) && Attempts(system.world, Slots)
    ensures var System(world, channel, ledger) := system;
      var next, room := SystemNext(system, Sends(record)), |channel.queue| < channel.capacity;
      && next.world.worker == Polling(world.worker.token, if room then Finishing else Parking)
      && next.channel == (if room then channel.(queue := channel.queue + [record]) else channel)
      && next.ledger == ledger && next.world.ready == world.ready
  {
    hide Ready.Consistent, Served, Memory.Conserved;
  }

  /** A copy that fits is charged to its owner and leaves its order; one that does not changes nothing and sleeps. */
  lemma CopyActs(system: System, owner: Option<ConnectionId>)
    requires SystemInv(system) && Attempts(system.world, Bytes)
    ensures var System(world, channel, ledger) := system;
      var amount := world.requests[world.worker.token].amount;
      var next, room := SystemNext(system, Copies(owner)), amount <= ledger.capacity - ledger.used;
      && next.world.worker == Polling(world.worker.token, if room then Finishing else Parking)
      && next.ledger.used == ledger.used + (if room then amount else 0)
      && next.ledger.charges == ledger.charges + (if room then [Memory.Charge(amount, owner, Memory.Reserved)] else [])
      && next.channel == channel && next.world.ready == world.ready
  {
    hide Ready.Consistent, Served, Memory.Conserved, Memory.Total;
    Memory.ConservedSafe(system.ledger, Memory.Reserve(system.world.requests[system.world.worker.token].amount, owner));
  }

  /** Owners of copied bytes act on the account alone, and it never panics. */
  lemma OwnersAct(system: System, charge: nat)
    requires SystemInv(system)
    ensures Some(SystemNext(system, Tracks(charge)).ledger) == Memory.Next(system.ledger, Memory.Track(charge))
    ensures Some(SystemNext(system, Untracks(charge)).ledger) == Memory.Next(system.ledger, Memory.Untrack(charge))
    ensures Some(SystemNext(system, Releases(charge)).ledger) == Memory.Next(system.ledger, Memory.Release(charge))
  {
    hide Memory.Conserved, Memory.Total;
    Memory.ConservedSafe(system.ledger, Memory.Track(charge));
    Memory.ConservedSafe(system.ledger, Memory.Untrack(charge));
    Memory.ConservedSafe(system.ledger, Memory.Release(charge));
  }

  /** A step of the system never leaves the invariant; a full account or channel is met by a failed attempt. */
  lemma StepRepresents(system: System, step: SystemStep)
    requires SystemInv(system)
    ensures Represents(SystemNext(system, step))
  {
    if step.Inner? {
      if !TouchesResource(step.step) {
        InnerKeeps(system.world, step.step);
        hide Next, Inv, Memory.Conserved;
      }
    } else if step.Sends? || step.Takes? || step.Announces? {
      ChannelRepresents(system, step);
    } else {
      LedgerRepresents(system, step);
    }
  }

  lemma ChannelRepresents(system: System, step: SystemStep)
    requires SystemInv(system) && (step.Sends? || step.Takes? || step.Announces?)
    ensures Represents(SystemNext(system, step))
  {
    hide Ready.Consistent, Served, Registered, Memory.Conserved;
  }

  lemma LedgerRepresents(system: System, step: SystemStep)
    requires SystemInv(system) && !step.Inner? && !step.Sends? && !step.Takes? && !step.Announces?
    ensures Represents(SystemNext(system, step))
  {
    hide Ready.Consistent, Served, Registered, Memory.Conserved, Memory.Total;
    if step.Releases? || step.Tracks? || step.Untracks? {
      Memory.ConservedSafe(system.ledger, if step.Releases? then Memory.Release(step.charge)
                                          else if step.Tracks? then Memory.Track(step.charge)
                                          else Memory.Untrack(step.charge));
    } else {
      Memory.ConservedSafe(system.ledger, Memory.Reserve(0, None));
    }
  }

  /** Steps that touch no resource change only credit flags, which drained credit clears. */
  lemma InnerKeeps(world: World, step: Step)
    requires !TouchesResource(step)
    ensures var next := Next(world, step);
      && next.slots == world.slots.(credit := next.slots.credit)
      && next.bytes == world.bytes.(credit := next.bytes.credit)
  {
    hide Retire, RemoveRequest, Park, RequestTurn, Take, Insert, IoReady, ResumeHead, Enqueue;
  }

  lemma StepConserved(system: System, step: SystemStep)
    requires Memory.Conserved(system.ledger)
    ensures Memory.Conserved(SystemNext(system, step).ledger)
  {
    hide Memory.Conserved, Next, Memory.Next;
    match step
    case Copies(owner) =>
      if Attempts(system.world, Bytes) {
        var request := system.world.requests[system.world.worker.token];
        Memory.NextConserved(system.ledger, Memory.Reserve(request.amount, owner));
      }
    case CopiesOutside(bytes) => Memory.NextConserved(system.ledger, Memory.Reserve(bytes, None));
    case Tracks(charge) => Memory.NextConserved(system.ledger, Memory.Track(charge));
    case Untracks(charge) => Memory.NextConserved(system.ledger, Memory.Untrack(charge));
    case Releases(charge) => Memory.NextConserved(system.ledger, Memory.Release(charge));
    case _ =>
  }

  lemma StepInv(system: System, step: SystemStep)
    requires SystemInv(system)
    ensures SystemInv(SystemNext(system, step))
  {
    StepRepresents(system, step);
    StepConserved(system, step);
    WorldInv(system, step);
    hide Represents, Inv, Memory.Conserved, SystemNext;
  }

  /** Each step of the system is a step of the contention, or none. */
  lemma WorldInv(system: System, step: SystemStep)
    requires Inv(system.world)
    ensures Inv(SystemNext(system, step).world)
  {
    hide Inv, Next;
    match step
    case Inner(inner) => NextInv(system.world, inner);
    case Sends(_) => NextInv(system.world, Attempt);
    case Copies(_) => NextInv(system.world, Attempt);
    case Takes => NextInv(system.world, Release(Slots, 1));
    case Announces => NextInv(system.world, Publish(Slots));
    case CopiesOutside(bytes) => NextInv(system.world, ExternalCopy(bytes));
    case Tracks(_) =>
    case Untracks(_) =>
    case Releases(charge) =>
      if Memory.At(system.ledger, charge, Memory.Untracked) {
        NextInv(system.world, Release(Bytes, system.ledger.charges[charge].bytes));
      }
    case PublishesBytes => NextInv(system.world, Publish(Bytes));
  }

  /** A worker without tasks, over an empty channel and an empty account. */
  predicate Fresh(system: System) {
    && Fairness.Initial(system.world) && Represents(system)
    && system.channel.queue == [] && system.ledger == Memory.Empty(system.ledger.capacity)
    && system.ledger.capacity <= U64_MAX
  }

  function SystemRun(initial: System, steps: seq<SystemStep>): System {
    if steps == [] then initial
    else SystemNext(SystemRun(initial, steps[..|steps| - 1]), steps[|steps| - 1])
  }

  lemma {:induction false} SystemRunInv(initial: System, steps: seq<SystemStep>)
    requires Fresh(initial)
    ensures SystemInv(SystemRun(initial, steps))
    decreases |steps|
  {
    hide SystemInv, SystemNext, Fresh;
    if steps == [] {
      FreshInv(initial);
    } else {
      SystemRunInv(initial, steps[..|steps| - 1]);
      StepInv(SystemRun(initial, steps[..|steps| - 1]), steps[|steps| - 1]);
    }
  }

  lemma FreshInv(initial: System)
    requires Fresh(initial)
    ensures SystemInv(initial)
  {
    Fairness.RunInv(initial.world, []);
    Memory.EmptyConserved(initial.ledger.capacity);
    hide Inv, Memory.Conserved;
  }

  /**
   * No lost wakeup, for the channel: when the oldest sender sleeps although the queue has room, a removal is still
   * to be announced, or its credit is set, or the worker is just using it.
   */
  lemma {:induction false} RoomWakesSender(initial: System, steps: seq<SystemStep>)
    requires Fresh(initial)
    ensures var System(world, channel, _) := SystemRun(initial, steps);
      world.ready.slotWaiters != [] && world.ready.Parked(world.ready.slotWaiters[0])
      && |channel.queue| < channel.capacity ==>
        channel.unannounced > 0 || world.slots.credit || world.worker == Resuming(Slots)
  {
    SystemRunInv(initial, steps);
    hide SystemRun, Memory.Conserved, Ready.Consistent;
  }

  /** And for the account: the oldest copy that sleeps although its bytes would fit is about to be woken. */
  lemma {:induction false} BytesWakeCopier(initial: System, steps: seq<SystemStep>)
    requires Fresh(initial)
    ensures var System(world, _, ledger) := SystemRun(initial, steps);
      var waiters := world.ready.byteWaiters;
      waiters != [] && world.ready.Parked(waiters[0]) && waiters[0] in world.requests
      && ledger.used + world.requests[waiters[0]].amount <= ledger.capacity ==>
        world.bytes.unpublished > 0 || world.bytes.credit || world.worker == Resuming(Bytes)
  {
    SystemRunInv(initial, steps);
    hide SystemRun, Memory.Conserved, Ready.Consistent;
  }

  /** The worker takes up announced credit. */
  function Resumed(system: System, reason: Scarce): System {
    SystemNext(SystemNext(system, Inner(DrainCredit(reason))), Inner(ResumeCredit))
  }

  /** Drained credit gives the head of its order a turn. */
  lemma CreditRuns(system: System, reason: Scarce)
    requires Inv(system.world) && system.world.worker.Idle? && system.world.Of(reason).credit
    requires system.world.ready.Waiters(reason) != []
    ensures var after := Resumed(system, reason);
      && after.world.ready.Runnable(system.world.ready.Waiters(reason)[0]) && after.world.worker.Idle?
      && after.channel == system.channel && after.ledger == system.ledger
  {
    hide Served, Ready.Sound, ResumeHead;
    assert system.world.ready.Waiters(reason)[0] in system.world.ready.Waiters(reason);
    ResumeSound(system.world.ready, reason);
  }

  /** Capacity that is given back and announced leaves the worker and its orders alone and sets the credit. */
  lemma GivenBack(world: World, reason: Scarce, amount: nat)
    requires 0 < amount <= world.Of(reason).used
    ensures var after := Next(Next(world, Release(reason, amount)), Publish(reason));
      after.Of(reason).credit && after.worker == world.worker && after.ready == world.ready
  {
  }

  /** Removing one record, and announcing it, gives the oldest sender its turn, whatever the schedule was before. */
  lemma RemovalWakesSender(initial: System, steps: seq<SystemStep>)
    requires Fresh(initial)
    requires var System(world, channel, _) := SystemRun(initial, steps);
      world.worker.Idle? && channel.queue != [] && world.ready.slotWaiters != []
    ensures var system := SystemRun(initial, steps);
      var after := Resumed(SystemNext(SystemNext(system, Takes), Announces), Slots);
      && after.channel.queue == system.channel.queue[1..]
      && after.world.ready.Runnable(system.world.ready.slotWaiters[0]) && after.world.worker.Idle?
  {
    hide SystemRun, Inv, Memory.Conserved, Resumed, Next;
    SystemRunInv(initial, steps);
    var system := SystemRun(initial, steps);
    GivenBack(system.world, Slots, 1);
    var removed := SystemNext(system, Takes);
    WorldInv(system, Takes);
    WorldInv(removed, Announces);
    CreditRuns(SystemNext(removed, Announces), Slots);
  }

  /** And giving back the bytes of one charge does so for the oldest copy. */
  lemma ReleaseWakesCopier(initial: System, steps: seq<SystemStep>, charge: nat)
    requires Fresh(initial)
    requires var System(world, _, ledger) := SystemRun(initial, steps);
      && world.worker.Idle? && world.ready.byteWaiters != []
      && Memory.At(ledger, charge, Memory.Untracked) && ledger.charges[charge].bytes > 0
    ensures var system := SystemRun(initial, steps);
      var after := Resumed(SystemNext(SystemNext(system, Releases(charge)), PublishesBytes), Bytes);
      && after.ledger.used == system.ledger.used - system.ledger.charges[charge].bytes
      && after.world.ready.Runnable(system.world.ready.byteWaiters[0]) && after.world.worker.Idle?
  {
    hide SystemRun, Inv, Memory.Conserved, Memory.Total, Resumed, Next;
    SystemRunInv(initial, steps);
    var system := SystemRun(initial, steps);
    Memory.ConservedSafe(system.ledger, Memory.Release(charge));
    GivenBack(system.world, Bytes, system.ledger.charges[charge].bytes);
    var released := SystemNext(system, Releases(charge));
    WorldInv(system, Releases(charge));
    WorldInv(released, PublishesBytes);
    CreditRuns(SystemNext(released, PublishesBytes), Bytes);
  }
}
