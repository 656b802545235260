/** Scoped close requests: tickets of many callers, the worker's retirements, and shutdown, lock by lock. */
module Controls {
  import opened Wire
  import opened Records

  datatype CloseResult = RetiredByRequest | ConnectionEnded | ReceiverStopped

  datatype CloseError = UnknownOrStale | ReceiverStopping

  /**
   * `entries` are live identities with their request mark. A removed identity is `settling` until its
   * ticket is completed, then it is in `results`. `asked` remembers every accepted request.
   */
  datatype Registry = Registry(
    instance: nat,
    stopping: bool,
    entries: map<ConnectionId, bool>,
    settling: map<ConnectionId, CloseResult>,
    results: map<ConnectionId, CloseResult>,
    asked: set<ConnectionId>)
  {
    function Known(): set<ConnectionId> {
      entries.Keys + settling.Keys + results.Keys
    }

    /** What a holder of a ticket sees. */
    function TicketResult(id: ConnectionId): Option<CloseResult> {
      if id in results then Some(results[id]) else None
    }
  }

  function Open(instance: nat): Registry {
    Registry(instance, false, map[], map[], map[], {})
  }

  function Register(registry: Registry, id: ConnectionId): Registry {
    registry.(entries := registry.entries[id := false])
  }

  /** A caller's request: a ticket for a live identity of this receiver, or a refusal that changes nothing. */
  function Close(registry: Registry, id: ConnectionId): (Registry, Option<CloseError>) {
    if id.instance != registry.instance then (registry, Some(UnknownOrStale))
    else if registry.stopping then (registry, Some(ReceiverStopping))
    else if id !in registry.entries then (registry, Some(UnknownOrStale))
    else (registry.(entries := registry.entries[id := true], asked := registry.asked + {id}), None)
  }

  predicate Requested(registry: Registry, id: ConnectionId) {
    id in registry.entries && registry.entries[id]
  }

  /** The worker takes the entry of a retired connection; its ticket is completed by a later step. */
  function Remove(registry: Registry, id: ConnectionId, result: CloseResult): Registry {
    if id in registry.entries then
      registry.(entries := registry.entries - {id}, settling := registry.settling[id := result])
    else registry
  }

  function Settle(registry: Registry, id: ConnectionId): Registry {
    if id in registry.settling then
      registry.(settling := registry.settling - {id}, results := registry.results[id := registry.settling[id]])
    else registry
  }

  /** Shutdown takes all entries at once. */
  function StopAll(registry: Registry): Registry {
    registry.(stopping := true, entries := map[],
              settling := registry.settling + (map id | id in registry.entries :: ReceiverStopped))
  }

  datatype Step =
    | Admitted(id: ConnectionId)
    | CloseCall(id: ConnectionId)
    | Retired(id: ConnectionId, result: CloseResult)
    | Settled(id: ConnectionId)
    | Stopped

  /** A worker retires by request only what it saw requested, and registers only fresh identities of its own. */
  predicate Allowed(registry: Registry, step: Step) {
    match step
    case Admitted(id) => id.instance == registry.instance && id !in registry.Known() && !registry.stopping
    case Retired(id, RetiredByRequest) => Requested(registry, id)
    case _ => true
  }

  function Next(registry: Registry, step: Step): Registry {
    if !Allowed(registry, step) then registry
    else
      match step
      case Admitted(id) => Register(registry, id)
      case CloseCall(id) => Close(registry, id).0
      case Retired(id, result) => Remove(registry, id, result)
      case Settled(id) => Settle(registry, id)
      case Stopped => StopAll(registry)
  }

  function Run(instance: nat, steps: seq<Step>): Registry {
    if steps == [] then Open(instance) else Next(Run(instance, steps[..|steps| - 1]), steps[|steps| - 1])
  }

  predicate Inv(registry: Registry) {
    && registry.entries.Keys !! registry.settling.Keys
    && registry.entries.Keys !! registry.results.Keys
    && registry.settling.Keys !! registry.results.Keys
    && registry.asked <= registry.Known()
    && (forall id <- registry.Known() :: id.instance == registry.instance)
    && (forall id <- registry.entries :: registry.entries[id] <==> id in registry.asked)
    && (forall id <- registry.settling :: registry.settling[id].RetiredByRequest? ==> id in registry.asked)
    && (forall id <- registry.results :: registry.results[id].RetiredByRequest? ==> id in registry.asked)
    && (registry.stopping ==> registry.entries == map[])
  }

  /** Identities are never forgotten or reused, and a completed ticket keeps its result. */
  predicate Grows(before: Registry, after: Registry) {
    && before.Known() <= after.Known() && before.asked <= after.asked && before.instance == after.instance
    && (before.stopping ==> after.stopping)
    && forall id <- before.results :: id in after.results && after.results[id] == before.results[id]
  }

  lemma SettleInv(registry: Registry, id: ConnectionId)
    requires Inv(registry)
    ensures Inv(Settle(registry, id)) && Grows(registry, Settle(registry, id))
  {
    assert Settle(registry, id).Known() == registry.Known();
  }

  lemma RemoveInv(registry: Registry, id: ConnectionId, result: CloseResult)
    requires Inv(registry) && Allowed(registry, Retired(id, result))
    ensures Inv(Remove(registry, id, result)) && Grows(registry, Remove(registry, id, result))
  {
    assert Remove(registry, id, result).Known() == registry.Known();
  }

  lemma StopInv(registry: Registry)
    requires Inv(registry)
    ensures Inv(StopAll(registry)) && Grows(registry, StopAll(registry))
  {
    assert (map id | id in registry.entries :: ReceiverStopped).Keys == registry.entries.Keys;
    assert StopAll(registry).Known() == registry.Known();
  }

  lemma CallInv(registry: Registry, id: ConnectionId)
    requires Inv(registry)
    ensures Inv(Close(registry, id).0) && Grows(registry, Close(registry, id).0)
  {
    assert Close(registry, id).0.Known() == registry.Known();
  }

  lemma AdmitInv(registry: Registry, id: ConnectionId)
    requires Inv(registry) && Allowed(registry, Admitted(id))
    ensures Inv(Register(registry, id)) && Grows(registry, Register(registry, id))
  {
    assert Register(registry, id).Known() == registry.Known() + {id};
  }

  lemma NextInv(registry: Registry, step: Step)
    requires Inv(registry)
    ensures Inv(Next(registry, step)) && Grows(registry, Next(registry, step))
  {
    if Allowed(registry, step) {
      hide Inv, Grows, Allowed, Register, Close, Remove, Settle, StopAll;
      match step
      case Stopped => StopInv(registry);
      case Settled(id) => SettleInv(registry, id);
      case Retired(id, result) => RemoveInv(registry, id, result);
      case CloseCall(id) => CallInv(registry, id);
      case Admitted(id) => AdmitInv(registry, id);
    }
  }

  lemma {:induction false} RunInv(instance: nat, steps: seq<Step>)
    ensures Inv(Run(instance, steps)) && Run(instance, steps).instance == instance
    decreases |steps|
  {
    if steps != [] {
      hide Inv, Next;
      RunInv(instance, steps[..|steps| - 1]);
      NextInv(Run(instance, steps[..|steps| - 1]), steps[|steps| - 1]);
    } else {
      assert Open(instance).Known() == {};
    }
  }

  lemma {:induction false} RunGrows(instance: nat, steps: seq<Step>, from: nat)
    requires from <= |steps|
    ensures Grows(Run(instance, steps[..from]), Run(instance, steps))
    decreases |steps|
  {
    if from == |steps| {
      assert steps[..from] == steps;
    } else {
      var before := steps[..|steps| - 1];
      assert before[..from] == steps[..from];
      RunGrows(instance, before, from);
      RunInv(instance, before);
      hide Inv, Next;
      NextInv(Run(instance, before), steps[|steps| - 1]);
    }
  }

  /** A ticket is completed once: what any holder saw stays the result for all holders, for ever. */
  lemma TicketsNeverChange(instance: nat, steps: seq<Step>, from: nat, id: ConnectionId)
    requires from <= |steps| && Run(instance, steps[..from]).TicketResult(id).Some?
    ensures Run(instance, steps).TicketResult(id) == Run(instance, steps[..from]).TicketResult(id)
  {
    RunGrows(instance, steps, from);
  }

  /** A retirement is reported as requested only if some caller asked for that very identity before. */
  lemma RetiredOnlyIfAsked(instance: nat, steps: seq<Step>, id: ConnectionId)
    requires Run(instance, steps).TicketResult(id) == Some(RetiredByRequest)
    ensures exists i :: 0 <= i < |steps| && steps[i] == CloseCall(id) && Close(Run(instance, steps[..i]), id).1 == None
  {
    RunInv(instance, steps);
    AskedBefore(instance, steps, id);
  }

  lemma {:induction false} AskedBefore(instance: nat, steps: seq<Step>, id: ConnectionId)
    requires id in Run(instance, steps).asked
    ensures exists i :: 0 <= i < |steps| && steps[i] == CloseCall(id) && Close(Run(instance, steps[..i]), id).1 == None
    decreases |steps|
  {
    if steps != [] {
      var before, last := steps[..|steps| - 1], |steps| - 1;
      if id in Run(instance, before).asked {
        AskedBefore(instance, before, id);
        var i :| 0 <= i < |before| && before[i] == CloseCall(id) && Close(Run(instance, before[..i]), id).1 == None;
        assert steps[..i] == before[..i];
      } else {
        assert steps[..last] == before;
      }
    }
  }

  /** Calls for foreign, stale or completed identities change nothing and give no ticket. */
  lemma RefusedCallIsInert(instance: nat, steps: seq<Step>, id: ConnectionId)
    ensures var registry := Run(instance, steps);
      var (after, error) := Close(registry, id);
      && (error.None? <==> id in registry.entries)
      && (error.Some? ==> after == registry)
      && (error.None? ==> forall other :: other != id ==>
            (other in after.entries <==> other in registry.entries)
            && (other in registry.entries ==> after.entries[other] == registry.entries[other])
            && after.TicketResult(other) == registry.TicketResult(other))
  {
    RunInv(instance, steps);
  }

  /** Once shutdown has taken the entries and completed them, every ticket ever given has its result. */
  lemma ShutdownCompletesAll(instance: nat, steps: seq<Step>, id: ConnectionId)
    requires Run(instance, steps).stopping && Run(instance, steps).settling == map[]
    requires id in Run(instance, steps).asked
    ensures Run(instance, steps).TicketResult(id).Some?
  {
    RunInv(instance, steps);
  }

  lemma {:induction false} StoppingIff(instance: nat, steps: seq<Step>)
    ensures Run(instance, steps).stopping <==> Stopped in steps
    decreases |steps|
  {
    if steps != [] {
      var before := steps[..|steps| - 1];
      StoppingIff(instance, before);
      assert steps == before + [steps[|steps| - 1]];
    }
  }

  /** What a refused caller is told: that the receiver stops, or that the identity is foreign or not live. */
  lemma CallAnswers(instance: nat, steps: seq<Step>, id: ConnectionId)
    ensures match Close(Run(instance, steps), id).1
      case None => id in Run(instance, steps).entries && Stopped !in steps
      case Some(ReceiverStopping) => id.instance == instance && Stopped in steps
      case Some(UnknownOrStale) =>
        id.instance != instance || (Stopped !in steps && id !in Run(instance, steps).entries)
  {
    RunInv(instance, steps);
    StoppingIff(instance, steps);
  }

  /** The result that the ticket of a connection has, or will have once it is completed. */
  function Fate(registry: Registry, id: ConnectionId): Option<CloseResult> {
    if id in registry.results then Some(registry.results[id])
    else if id in registry.settling then Some(registry.settling[id])
    else None
  }

  lemma FateStep(registry: Registry, step: Step, id: ConnectionId)
    requires Inv(registry)
    ensures var before, after := Fate(registry, id), Fate(Next(registry, step), id);
      && (before.Some? ==> after == before)
      && (before.None? && after.Some? ==> id in registry.entries && EndsWith(step, id, after.value))
  {
  }

  predicate EndsWith(step: Step, id: ConnectionId, result: CloseResult) {
    step == Retired(id, result) || (step == Stopped && result == ReceiverStopped)
  }

  /** At step `i` a live connection ended, with this result for its ticket. */
  predicate EndsAs(instance: nat, steps: seq<Step>, i: nat, id: ConnectionId, result: CloseResult)
    requires i < |steps|
  {
    id in Run(instance, steps[..i]).entries && EndsWith(steps[i], id, result)
  }

  /** The result of a ticket is the one with which its connection ended, and no other. */
  lemma {:induction false} ResultIsCause(instance: nat, steps: seq<Step>, id: ConnectionId)
    requires Fate(Run(instance, steps), id).Some?
    ensures var result := Fate(Run(instance, steps), id).value;
      exists i :: 0 <= i < |steps| && EndsAs(instance, steps, i, id, result)
    decreases |steps|
  {
    hide Inv, Next, Fate, EndsWith;
    if steps == [] {
      NoFate(instance, id);
    } else {
      var before, last := steps[..|steps| - 1], |steps| - 1;
      RunInv(instance, before);
      FateStep(Run(instance, before), steps[last], id);
      var result := Fate(Run(instance, steps), id).value;
      assert steps[..last] == before;
      if Fate(Run(instance, before), id).Some? {
        ResultIsCause(instance, before, id);
        var i :| 0 <= i < |before| && EndsAs(instance, before, i, id, result);
        assert steps[..i] == before[..i];
        assert EndsAs(instance, steps, i, id, result);
      } else {
        assert EndsAs(instance, steps, last, id, result);
      }
    }
  }

  lemma NoFate(instance: nat, id: ConnectionId)
    ensures Fate(Open(instance), id) == None
  {
  }
}
