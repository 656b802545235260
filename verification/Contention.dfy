/** One worker and any number of releasing threads, interleaved at every locked block and atomic flag. */
module Contention {
  import opened Wire
  import opened Orders
  import opened ReadySet

  /** A shared resource: `credit` is its coalesced flag, `unpublished` the releases not yet announced. */
  datatype Resource = Resource(capacity: nat, used: nat, credit: bool, unpublished: nat)
  {
    predicate Fits(amount: nat) {
      used + amount <= capacity
    }
  }

  /** What an operation of a task waits for: one record slot, or a number of bytes. */
  datatype Request = Request(reason: Scarce, amount: nat)

  /** Where the worker's poll of a task stands between two locked blocks. */
  datatype Phase = Free | Attempting | Parking | Finishing

  datatype Worker = Idle | Resuming(reason: Scarce) | Polling(token: Token, phase: Phase)

  datatype World = World(ready: Ready, worker: Worker, requests: map<Token, Request>, slots: Resource, bytes: Resource)
  {
    function Of(reason: Scarce): Resource {
      if reason.Slots? then slots else bytes
    }

    function With(reason: Scarce, resource: Resource): World {
      if reason.Slots? then this.(slots := resource) else this.(bytes := resource)
    }
  }

  datatype Step =
    // The worker between polls.
    | DrainCredit(reason: Scarce)
    | ResumeCredit
    | TakeNext
    | Admit(token: Token)
    | RetireTask(token: Token)
    | IoEvent(token: Token)
    // The worker inside a poll.
    | Begin(request: Request)
    | Ask
    | Attempt
    | GiveUp
    | ParkRequest
    | FinishRequest
    | ParkKernel
    | Yield
    | Complete
    // Other threads.
    | Wake(token: Token)
    | Release(reason: Scarce, amount: nat)
    | Publish(reason: Scarce)
    | ExternalCopy(amount: nat)

  function Next(world: World, step: Step): World {
    match step
    case Wake(token) => world.(ready := Enqueue(world.ready, token).0)
    case Release(reason, amount) => ReleaseStep(world, reason, amount)
    case Publish(reason) => PublishStep(world, reason)
    case ExternalCopy(amount) =>
      if world.bytes.Fits(amount) then world.(bytes := world.bytes.(used := world.bytes.used + amount)) else world
    case _ => WorkerStep(world, step)
  }

  /** Capacity is given back first and announced by a later step. */
  function ReleaseStep(world: World, reason: Scarce, amount: nat): World {
    if amount == 0 || amount > world.Of(reason).used then world
    else
      var resource := world.Of(reason);
      world.With(reason, resource.(used := resource.used - amount, unpublished := resource.unpublished + 1))
  }

  function PublishStep(world: World, reason: Scarce): World {
    if world.Of(reason).unpublished == 0 then world
    else
      var resource := world.Of(reason);
      world.With(reason, resource.(credit := true, unpublished := resource.unpublished - 1))
  }

  function WorkerStep(world: World, step: Step): World {
    match world.worker
    case Idle => IdleStep(world, step)
    case Resuming(reason) =>
      if step.ResumeCredit? then world.(ready := ResumeHead(world.ready, reason).0, worker := Idle) else world
    case Polling(token, phase) => if token in world.ready.states then PollStep(world, token, phase, step) else world
  }

  function IdleStep(world: World, step: Step): World {
    match step
    case DrainCredit(reason) =>
      if !world.Of(reason).credit then world
      else world.With(reason, world.Of(reason).(credit := false)).(worker := Resuming(reason))
    case TakeNext =>
      var (ready, taken) := Take(world.ready);
      if taken.None? then world else world.(ready := ready, worker := Polling(taken.value, Free))
    case Admit(token) =>
      if token in world.ready.states || |world.ready.states| >= world.ready.capacity then world
      else world.(ready := Insert(world.ready, token))
    case RetireTask(token) => world.(ready := Retire(world.ready, token).0, requests := world.requests - {token})
    case IoEvent(token) => world.(ready := IoReady(world.ready, token))
    case _ => world
  }

  /** A request that can be made at all: one slot, or bytes within the whole budget. */
  predicate Possible(world: World, request: Request) {
    if request.reason.Slots? then request.amount == 1 else request.amount <= world.bytes.capacity
  }

  function PollStep(world: World, token: Token, phase: Phase, step: Step): World
    requires token in world.ready.states
  {
    var waiting := token in world.requests;
    match phase
    case Free =>
      if waiting then
        var reason := world.requests[token].reason;
        match step
        case Ask =>
          var (ready, head) := RequestTurn(world.ready, token, reason);
          world.(ready := ready, worker := Polling(token, if head then Attempting else Parking))
        case GiveUp => world.(worker := Polling(token, Finishing))
        case Yield => world.(ready := Enqueue(world.ready, token).0, worker := Idle)
        case _ => world
      else
        (match step
         case Begin(request) =>
           if Possible(world, request) then world.(requests := world.requests[token := request]) else world
         case ParkKernel => world.(ready := Park(world.ready, token, Kernel), worker := Idle)
         case Yield => world.(ready := Enqueue(world.ready, token).0, worker := Idle)
         case Complete => world.(ready := Retire(world.ready, token).0, worker := Idle)
         case _ => world)
    case Attempting =>
      if !waiting then world
      else
        var Request(reason, amount) := world.requests[token];
        var resource := world.Of(reason);
        (match step
         case Attempt =>
           if resource.Fits(amount) then
             world.With(reason, resource.(used := resource.used + amount)).(worker := Polling(token, Finishing))
           else world.(worker := Polling(token, Parking))
         case GiveUp => world.(worker := Polling(token, Finishing))
         case _ => world)
    case Parking =>
      if waiting && step.ParkRequest? then
        world.(ready := Park(world.ready, token, world.requests[token].reason), worker := Idle)
      else world
    case Finishing =>
      if waiting && step.FinishRequest? then
        world.(ready := RemoveRequest(world.ready, token, world.requests[token].reason).0,
               requests := world.requests - {token},
               worker := Polling(token, Free))
      else world
  }

  /** Requests, orders, states and the worker's position agree. */
  ghost predicate Base(world: World) {
    && world.ready.Consistent()
    && world.slots.used <= world.slots.capacity && world.bytes.used <= world.bytes.capacity
    && (forall token :: token in world.requests ==>
          token in world.ready.states && Possible(world, world.requests[token]))
    && Registered(world, Slots) && Registered(world, Bytes)
    && (forall token :: token in world.ready.states && world.ready.states[token].Running? ==>
          world.worker.Polling? && world.worker.token == token)
    && match world.worker
       case Idle => true
       case Resuming(_) => true
       case Polling(token, phase) =>
         && token in world.ready.states && !world.ready.Parked(token)
         && (phase.Free? || token in world.requests)
         && (phase.Attempting? ==> First(world.ready.Waiters(world.requests[token].reason)) == Some(token))
         && (phase.Parking? ==> token in world.ready.Waiters(world.requests[token].reason))
  }

  /** Members of an order are the tasks that asked for its resource. */
  predicate Registered(world: World, reason: Scarce) {
    forall token <- world.ready.Waiters(reason) :: token in world.requests && world.requests[token].reason == reason
  }

  /** The next drain of credit will look at the head: its capacity is announced, about to be, or being handled. */
  predicate Covered(world: World, reason: Scarce) {
    world.Of(reason).credit || world.Of(reason).unpublished > 0 || world.worker == Resuming(reason)
  }

  /** A head that sleeps, or is about to, either does not fit or is covered. */
  predicate Served(world: World, reason: Scarce) {
    var waiters := world.ready.Waiters(reason);
    waiters != [] && waiters[0] in world.requests
    && (world.ready.Parked(waiters[0]) || world.worker == Polling(waiters[0], Parking))
    ==> !world.Of(reason).Fits(world.requests[waiters[0]].amount) || Covered(world, reason)
  }

  ghost predicate Inv(world: World) {
    Base(world) && Served(world, Slots) && Served(world, Bytes)
  }

  /** Blocks that only wake tasks keep the invariant: requests, orders and resources are untouched. */
  lemma WakesInv(world: World, next: World)
    requires Inv(world) && Wakes(world.ready, next.ready)
    requires next == world.(ready := next.ready)
    requires next.ready.slotWaiters == world.ready.slotWaiters && next.ready.byteWaiters == world.ready.byteWaiters
    ensures Inv(next)
  {
  }

  lemma WakeInv(world: World, token: Token)
    requires Inv(world)
    ensures Inv(world.(ready := Enqueue(world.ready, token).0))
  {
    EnqueueSound(world.ready, token);
    WakesInv(world, world.(ready := Enqueue(world.ready, token).0));
  }

  /** Steps of the resources alone. */
  lemma ResourceInv(world: World, step: Step)
    requires Inv(world) && (step.Release? || step.Publish? || step.ExternalCopy?)
    ensures Inv(Next(world, step))
  {
    hide Ready.Consistent, Served;
    ResourceServed(world, step, Slots);
    ResourceServed(world, step, Bytes);
  }

  lemma ResourceServed(world: World, step: Step, reason: Scarce)
    requires Served(world, reason) && (step.Release? || step.Publish? || step.ExternalCopy?)
    ensures Served(Next(world, step), reason)
  {
  }

  lemma DrainInv(world: World, reason: Scarce)
    requires Inv(world) && world.worker.Idle?
    ensures Inv(IdleStep(world, DrainCredit(reason)))
  {
    hide Ready.Consistent;
  }

  lemma ResumeInv(world: World)
    requires Inv(world) && world.worker.Resuming?
    ensures Inv(Next(world, ResumeCredit))
  {
    hide Ready.Sound, Wakes;
    var reason := world.worker.reason;
    ResumeSound(world.ready, reason);
    var next := Next(world, ResumeCredit);
    assert Wakes(world.ready, next.ready);
    ResumedInv(world, next);
  }

  lemma ResumedInv(world: World, next: World)
    requires Inv(world) && world.worker.Resuming?
    requires Wakes(world.ready, next.ready)
    requires next == world.(ready := next.ready, worker := Idle)
    requires next.ready.slotWaiters == world.ready.slotWaiters && next.ready.byteWaiters == world.ready.byteWaiters
    requires var waiters := world.ready.Waiters(world.worker.reason); waiters != [] ==> next.ready.Runnable(waiters[0])
    ensures Inv(next)
  {
  }

  lemma TakeInv(world: World)
    requires Inv(world) && world.worker.Idle?
    ensures Inv(IdleStep(world, TakeNext))
  {
    TakeConsistent(world.ready);
    hide Ready.Sound;
    var next := IdleStep(world, TakeNext);
    if world.ready.queue != [] {
      assert forall token :: token in world.ready.states && token != world.ready.queue[0] ==>
        next.ready.states[token] == world.ready.states[token];
    }
  }

  lemma AdmitInv(world: World, token: Token)
    requires Inv(world) && world.worker.Idle?
    ensures Inv(IdleStep(world, Admit(token)))
  {
    if token !in world.ready.states && |world.ready.states| < world.ready.capacity {
      InsertConsistent(world.ready, token);
      hide Ready.Sound;
    }
  }

  /** A retired task leaves both orders; each head that follows it owns a turn. */
  lemma RetireInv(world: World, token: Token, next: World)
    requires Inv(world)
    requires world.worker.Idle? || (world.worker == Polling(token, Free) && token !in world.requests)
    requires next == world.(ready := Retire(world.ready, token).0, requests := world.requests - {token}, worker := Idle)
    ensures Inv(next)
  {
    RetireConsistent(world.ready, token);
    WithoutHead(world.ready.slotWaiters, token);
    WithoutHead(world.ready.byteWaiters, token);
    RetiredBase(world, token, next);
    hide Ready.Sound, Without, Retire;
    RetiredServed(world, token, next, Slots);
    RetiredServed(world, token, next, Bytes);
  }

  lemma RetiredBase(world: World, token: Token, next: World)
    requires Base(world)
    requires world.worker.Idle? || world.worker == Polling(token, Free)
    requires next == world.(ready := Retire(world.ready, token).0, requests := world.requests - {token}, worker := Idle)
    ensures Base(next)
  {
    assert Distinct(world.ready.slotWaiters) && Distinct(world.ready.byteWaiters);
    hide Ready.Sound, Ready.Consistent, Without, Retire, Distinct, Base;
    RetireConsistent(world.ready, token);
    WithoutMembers(world.ready.slotWaiters, token);
    WithoutMembers(world.ready.byteWaiters, token);
    BaseWithout(world, token, next);
  }

  /** A world from which one request is gone, and with it every trace in the orders. */
  lemma BaseWithout(world: World, token: Token, next: World)
    requires Base(world) && next.ready.Consistent()
    requires next == world.(ready := next.ready, requests := world.requests - {token}, worker := next.worker)
    requires forall other <- next.ready.slotWaiters :: other in world.ready.slotWaiters && other != token
    requires forall other <- next.ready.byteWaiters :: other in world.ready.byteWaiters && other != token
    requires forall other :: other in world.ready.states && other != token ==> other in next.ready.states
    requires forall other :: other in next.ready.states ==>
      && other in world.ready.states
      && (next.ready.states[other] == world.ready.states[other] || next.ready.Runnable(other))
    requires (next.worker.Idle? && !world.worker.Resuming? && token !in next.ready.states
              && (world.worker.Polling? ==> world.worker.token == token))
      || (next.worker == Polling(token, Free) && world.worker.Polling? && world.worker.token == token
          && token in next.ready.states)
    ensures Base(next)
  {
    hide Ready.Consistent;
  }

  lemma WithoutHead(tokens: seq<Token>, token: Token)
    requires Distinct(tokens)
    ensures First(tokens) != Some(token) ==> First(Without(tokens, token)) == First(tokens)
  {
    if token in tokens && tokens[0] != token {
      assert Position(tokens, token) > 0;
    }
  }

  lemma RetiredServed(world: World, token: Token, next: World, reason: Scarce)
    requires Served(world, reason)
    requires Base(world)
    requires next.worker.Idle? && !world.worker.Resuming?
    requires next == world.(ready := next.ready, requests := world.requests - {token}, worker := Idle)
    requires First(world.ready.Waiters(reason)) == Some(token) && next.ready.Waiters(reason) != [] ==>
      next.ready.Runnable(next.ready.Waiters(reason)[0])
    requires First(world.ready.Waiters(reason)) != Some(token) ==>
      First(next.ready.Waiters(reason)) == First(world.ready.Waiters(reason))
    requires forall other :: other in next.ready.states ==>
      other in world.ready.states
      && (next.ready.states[other] == world.ready.states[other] || next.ready.Runnable(other))
    ensures Served(next, reason)
  {
  }

  lemma AskInv(world: World)
    requires Inv(world) && world.worker.Polling? && world.worker.phase.Free? && world.worker.token in world.requests
    ensures Inv(Next(world, Ask))
  {
    var token := world.worker.token;
    var reason := world.requests[token].reason;
    RequestConsistent(world.ready, token, reason);
    AppendedMembers(world.ready.Waiters(reason), token);
    AskServed(world, Slots);
    AskServed(world, Bytes);
    hide Ready.Consistent, Served, Distinct;
  }

  lemma AskServed(world: World, reason: Scarce)
    requires Base(world) && Served(world, reason)
    requires world.worker.Polling? && world.worker.phase.Free? && world.worker.token in world.requests
    ensures Served(Next(world, Ask), reason)
  {
    hide Ready.Consistent;
  }

  lemma AttemptInv(world: World, step: Step)
    requires Inv(world) && world.worker.Polling?
    requires (world.worker.phase.Attempting? && step.Attempt?) || (!world.worker.phase.Finishing? && step.GiveUp?)
      || (world.worker.phase.Free? && step.Begin?)
    ensures Inv(Next(world, step))
  {
    hide Base, Served, Next;
    AttemptBase(world, step);
    AttemptServed(world, step, Slots);
    AttemptServed(world, step, Bytes);
  }

  lemma AttemptBase(world: World, step: Step)
    requires Base(world) && world.worker.Polling?
    requires (world.worker.phase.Attempting? && step.Attempt?) || (!world.worker.phase.Finishing? && step.GiveUp?)
      || (world.worker.phase.Free? && step.Begin?)
    ensures Base(Next(world, step))
  {
    hide Ready.Consistent;
  }

  lemma AttemptServed(world: World, step: Step, reason: Scarce)
    requires Base(world) && Served(world, reason) && world.worker.Polling?
    requires (world.worker.phase.Attempting? && step.Attempt?) || (!world.worker.phase.Finishing? && step.GiveUp?)
      || (world.worker.phase.Free? && step.Begin?)
    ensures Served(Next(world, step), reason)
  {
    hide Ready.Consistent;
  }

  lemma ParkInv(world: World, reason: WaitReason)
    requires Inv(world) && world.worker.Polling?
    requires if reason.Kernel? then world.worker.phase.Free? && world.worker.token !in world.requests
      else world.worker.phase.Parking? && world.requests[world.worker.token].reason == reason
    ensures Inv(world.(ready := Park(world.ready, world.worker.token, reason), worker := Idle))
  {
    var token := world.worker.token;
    ParkConsistent(world.ready, token, reason);
    assert !reason.Kernel? ==> Appended(world.ready.Waiters(reason), token) == world.ready.Waiters(reason);
    hide Ready.Sound, Park, Appended;
    var next := world.(ready := Park(world.ready, token, reason), worker := Idle);
    assert next.ready.slotWaiters == world.ready.slotWaiters && next.ready.byteWaiters == world.ready.byteWaiters;
  }

  lemma YieldInv(world: World)
    requires Inv(world) && world.worker.Polling? && world.worker.phase.Free?
    ensures Inv(world.(ready := Enqueue(world.ready, world.worker.token).0, worker := Idle))
  {
    EnqueueSound(world.ready, world.worker.token);
    hide Ready.Sound, Enqueue;
  }

  lemma FinishInv(world: World)
    requires Inv(world) && world.worker.Polling? && world.worker.phase.Finishing?
    ensures Inv(Next(world, FinishRequest))
  {
    var token := world.worker.token;
    var reason := world.requests[token].reason;
    RemoveSound(world.ready, token, reason);
    WithoutHead(world.ready.Waiters(reason), token);
    FinishBase(world);
    hide Ready.Sound, Without, RemoveRequest;
    FinishServed(world, Next(world, FinishRequest), Slots);
    FinishServed(world, Next(world, FinishRequest), Bytes);
  }

  lemma FinishBase(world: World)
    requires Base(world) && world.worker.Polling? && world.worker.phase.Finishing?
    ensures Base(Next(world, FinishRequest))
  {
    var token := world.worker.token;
    var reason := world.requests[token].reason;
    RemoveSound(world.ready, token, reason);
    WithoutMembers(world.ready.Waiters(reason), token);
    var next := Next(world, FinishRequest);
    assert forall other <- next.ready.slotWaiters :: other in world.ready.slotWaiters && other != token;
    assert forall other <- next.ready.byteWaiters :: other in world.ready.byteWaiters && other != token;
    hide Base;
    BaseWithout(world, token, next);
  }

  lemma FinishServed(world: World, next: World, reason: Scarce)
    requires Base(world) && Served(world, reason) && world.worker.Polling? && world.worker.phase.Finishing?
    requires var token := world.worker.token;
      && next == world.(ready := next.ready, requests := world.requests - {token}, worker := Polling(token, Free))
      && Wakes(world.ready, next.ready)
      && (if reason == world.requests[token].reason then
            if First(world.ready.Waiters(reason)) == Some(token) then
              next.ready.Waiters(reason) != [] ==> next.ready.Runnable(next.ready.Waiters(reason)[0])
            else First(next.ready.Waiters(reason)) == First(world.ready.Waiters(reason))
          else next.ready.Waiters(reason) == world.ready.Waiters(reason))
    ensures Served(next, reason)
  {
    hide Ready.Sound;
  }

  lemma NextInv(world: World, step: Step)
    requires Inv(world)
    ensures Inv(Next(world, step))
  {
    hide Inv, Base, Served;
    var next := Next(world, step);
    if next == world { return; }
    match step
    case Wake(token) => WakeInv(world, token);
    case Release(_, _) => ResourceInv(world, step);
    case Publish(_) => ResourceInv(world, step);
    case ExternalCopy(_) => ResourceInv(world, step);
    case DrainCredit(reason) => DrainInv(world, reason);
    case ResumeCredit => ResumeInv(world);
    case TakeNext => TakeInv(world);
    case Admit(token) => AdmitInv(world, token);
    case RetireTask(token) => RetireInv(world, token, next);
    case IoEvent(token) => WakeInv(world, token);
    case Begin(_) => AttemptInv(world, step);
    case Ask => AskInv(world);
    case Attempt => AttemptInv(world, step);
    case GiveUp => AttemptInv(world, step);
    case ParkRequest => ParkInv(world, world.requests[world.worker.token].reason);
    case FinishRequest => FinishInv(world);
    case ParkKernel => ParkInv(world, Kernel);
    case Yield => YieldInv(world);
    case Complete =>
      assert world.requests - {world.worker.token} == world.requests;
      RetireInv(world, world.worker.token, next);
  }
}
