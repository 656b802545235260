/** Retained output bytes: the shared account, its per-connection tracker, and every interleaving of their locks. */
module Memory {
  import opened Wire
  import opened Records

  type Entries = map<ConnectionId, nat>

  function Retained(entries: Entries, id: ConnectionId): nat {
    if id in entries then entries[id] else 0
  }

  function TrackerAdd(entries: Entries, id: ConnectionId, bytes: nat): Entries {
    if bytes == 0 then entries else entries[id := Retained(entries, id) + bytes]
  }

  /** An entry exists only while bytes of its connection are retained. */
  function TrackerRelease(entries: Entries, id: ConnectionId, bytes: nat): Entries
    requires bytes <= Retained(entries, id)
  {
    if bytes == 0 then entries
    else if entries[id] == bytes then entries - {id}
    else entries[id := entries[id] - bytes]
  }

  /** The tracker; each method is one locked block. */
  class RetentionTracker {
    var entries: Entries

    constructor ()
      ensures entries == map[]
    {
      entries := map[];
    }

    method Add(id: ConnectionId, bytes: nat)
      requires Retained(entries, id) + bytes <= U64_MAX
      modifies this
      ensures entries == TrackerAdd(old(entries), id, bytes)
    {
      if bytes == 0 {
        return;
      }
      var current := if id in entries then entries[id] else 0;
      entries := entries[id := current + bytes];
    }

    method Release(id: ConnectionId, bytes: nat)
      requires bytes <= Retained(entries, id)
      modifies this
      ensures entries == TrackerRelease(old(entries), id, bytes)
    {
      if bytes == 0 {
        return;
      }
      var current := entries[id] - bytes;
      entries := entries[id := current];
      if current == 0 {
        entries := entries - {id};
      }
    }
  }

  /** The shared account. A release wakes the one subscriber, if there is one. */
  class ByteBudget {
    const capacity: nat
    var used: nat
    var subscribed: bool

    ghost predicate Valid()
      reads this
    {
      used <= capacity
    }

    constructor (capacity: nat)
      requires capacity > 0
      ensures Valid() && this.capacity == capacity && used == 0 && !subscribed
    {
      this.capacity, used, subscribed := capacity, 0, false;
    }

    method Reserve(required: nat) returns (r: Result<(), BudgetError>)
      requires Valid()
      modifies this
      ensures Valid() && subscribed == old(subscribed)
      ensures r.Ok? <==> old(used) + required <= capacity
      ensures used == old(used) + if r.Ok? then required else 0
      ensures r.Err? && required > capacity ==> r.error == TooLarge(required, capacity)
      ensures r.Err? && required <= capacity ==> r.error == Full(required, capacity - old(used))
    {
      if required > capacity {
        return Err(TooLarge(required, capacity));
      }
      var available := capacity - used;
      if required > available {
        return Err(Full(required, available));
      }
      used := used + required;
      r := Ok(());
    }

    method Release(released: nat) returns (wake: bool)
      requires Valid() && released <= used
      modifies this
      ensures Valid() && subscribed == old(subscribed) && used == old(used) - released
      ensures wake <==> released > 0 && subscribed
    {
      if released == 0 {
        return false;
      }
      used := used - released;
      wake := subscribed;
    }

    method Subscribe() returns (ok: bool)
      modifies this`subscribed
      ensures subscribed && (ok <==> !old(subscribed))
    {
      ok := !subscribed;
      subscribed := true;
    }

    method Unsubscribe()
      modifies this`subscribed
      ensures !subscribed
    {
      subscribed := false;
    }
  }

  /** A charge between the locked blocks that make it and undo it. */
  datatype Phase = Reserved | Tracked | Untracked | Freed

  datatype Charge = Charge(bytes: nat, owner: Option<ConnectionId>, phase: Phase)

  /** The account, the tracker and all charges ever made. */
  datatype Ledger = Ledger(capacity: nat, used: nat, entries: Entries, charges: seq<Charge>)

  datatype Step =
    | Reserve(bytes: nat, owner: Option<ConnectionId>)
    | Track(charge: nat)
    | Untrack(charge: nat)
    | Release(charge: nat)

  /** The checked additions and subtractions of the code, as conditions of the step that makes them. */
  predicate Safe(ledger: Ledger, step: Step) {
    match step
    case Reserve(bytes, _) => ledger.used <= ledger.capacity
    case Track(i) =>
      At(ledger, i, Reserved) && ledger.charges[i].owner.Some? ==>
        Retained(ledger.entries, ledger.charges[i].owner.value) + ledger.charges[i].bytes <= U64_MAX
    case Untrack(i) =>
      At(ledger, i, Tracked) && ledger.charges[i].owner.Some? ==>
        ledger.charges[i].bytes <= Retained(ledger.entries, ledger.charges[i].owner.value)
    case Release(i) => At(ledger, i, Untracked) ==> ledger.charges[i].bytes <= ledger.used
  }

  predicate At(ledger: Ledger, i: nat, phase: Phase) {
    i < |ledger.charges| && ledger.charges[i].phase == phase
  }

  function Moved(ledger: Ledger, i: nat, phase: Phase): Ledger
    requires i < |ledger.charges|
  {
    ledger.(charges := ledger.charges[i := ledger.charges[i].(phase := phase)])
  }

  /** One locked block; `None` is the panic of a failed checked operation. */
  function Next(ledger: Ledger, step: Step): Option<Ledger> {
    if Safe(ledger, step) then Some(Effect(ledger, step)) else None
  }

  function Effect(ledger: Ledger, step: Step): Ledger
    requires Safe(ledger, step)
  {
    match step
    case Reserve(bytes, owner) =>
      if bytes > ledger.capacity - ledger.used then ledger
      else ledger.(used := ledger.used + bytes, charges := ledger.charges + [Charge(bytes, owner, Reserved)])
    case Track(i) =>
      if !At(ledger, i, Reserved) then ledger
      else
        var Charge(bytes, owner, _) := ledger.charges[i];
        Moved(ledger, i, Tracked).(
          entries := if owner.Some? then TrackerAdd(ledger.entries, owner.value, bytes) else ledger.entries)
    case Untrack(i) =>
      if !At(ledger, i, Tracked) then ledger
      else
        var Charge(bytes, owner, _) := ledger.charges[i];
        Moved(ledger, i, Untracked).(
          entries := if owner.Some? then TrackerRelease(ledger.entries, owner.value, bytes) else ledger.entries)
    case Release(i) =>
      if !At(ledger, i, Untracked) then ledger
      else Moved(ledger, i, Freed).(used := ledger.used - ledger.charges[i].bytes)
  }

  /** Which charges a sum counts. */
  datatype Kind = Live | OwnedBy(ids: set<ConnectionId>)

  function Weight(kind: Kind, charge: Charge): nat {
    match kind
    case Live => if charge.phase.Freed? then 0 else charge.bytes
    case OwnedBy(ids) =>
      if charge.phase.Tracked? && charge.owner.Some? && charge.owner.value in ids then charge.bytes else 0
  }

  function Total(kind: Kind, charges: seq<Charge>): nat {
    if charges == [] then 0
    else Total(kind, charges[..|charges| - 1]) + Weight(kind, charges[|charges| - 1])
  }

  lemma TotalAppend(kind: Kind, charges: seq<Charge>, charge: Charge)
    ensures Total(kind, charges + [charge]) == Total(kind, charges) + Weight(kind, charge)
  {
    assert (charges + [charge])[..|charges|] == charges;
  }

  lemma {:induction false} TotalUpdate(kind: Kind, charges: seq<Charge>, i: nat, charge: Charge)
    requires i < |charges|
    ensures Weight(kind, charges[i]) <= Total(kind, charges)
    ensures Total(kind, charges[i := charge]) == Total(kind, charges) - Weight(kind, charges[i]) + Weight(kind, charge)
    decreases |charges|
  {
    var n := |charges| - 1;
    var after := charges[i := charge];
    if i < n {
      TotalUpdate(kind, charges[..n], i, charge);
      assert after[..n] == charges[..n][i := charge];
    } else {
      assert after[..n] == charges[..n];
    }
  }

  lemma {:induction false} OwnedWithinLive(ids: set<ConnectionId>, charges: seq<Charge>)
    ensures Total(OwnedBy(ids), charges) <= Total(Live, charges)
    decreases |charges|
  {
    if charges != [] {
      OwnedWithinLive(ids, charges[..|charges| - 1]);
    }
  }

  lemma {:induction false} OwnedSplits(ids: set<ConnectionId>, id: ConnectionId, charges: seq<Charge>)
    requires id !in ids
    ensures Total(OwnedBy(ids + {id}), charges) == Total(OwnedBy(ids), charges) + Total(OwnedBy({id}), charges)
    decreases |charges|
  {
    if charges != [] {
      OwnedSplits(ids, id, charges[..|charges| - 1]);
    }
  }

  /** The account holds the live charges; each entry holds the tracked charges of its connection, and is never zero. */
  ghost predicate Conserved(ledger: Ledger) {
    && ledger.used == Total(Live, ledger.charges) <= ledger.capacity <= U64_MAX
    && (forall id :: Retained(ledger.entries, id) == Total(OwnedBy({id}), ledger.charges))
    && (forall id <- ledger.entries :: ledger.entries[id] > 0)
  }

  /** In a conserved ledger no checked operation can fail. */
  lemma ConservedSafe(ledger: Ledger, step: Step)
    requires Conserved(ledger)
    ensures Safe(ledger, step)
  {
    if !step.Reserve? && step.charge < |ledger.charges| {
      var i := step.charge;
      var charge := ledger.charges[i];
      TotalUpdate(Live, ledger.charges, i, charge.(phase := Freed));
      if charge.owner.Some? {
        var owned := OwnedBy({charge.owner.value});
        TotalUpdate(owned, ledger.charges, i, charge.(phase := Tracked));
        OwnedWithinLive({charge.owner.value}, ledger.charges[i := charge.(phase := Tracked)]);
        TotalUpdate(Live, ledger.charges, i, charge.(phase := Tracked));
      }
    }
  }

  lemma ReserveConserved(ledger: Ledger, bytes: nat, owner: Option<ConnectionId>)
    requires Conserved(ledger)
    ensures Conserved(Effect(ledger, Reserve(bytes, owner)))
  {
    hide Total;
    var next, charge := Effect(ledger, Reserve(bytes, owner)), Charge(bytes, owner, Reserved);
    TotalAppend(Live, ledger.charges, charge);
    forall id
      ensures Retained(next.entries, id) == Total(OwnedBy({id}), next.charges)
    {
      TotalAppend(OwnedBy({id}), ledger.charges, charge);
    }
  }

  lemma MoveConserved(ledger: Ledger, step: Step)
    requires Conserved(ledger) && Safe(ledger, step)
    requires !step.Reserve? && Effect(ledger, step) != ledger
    ensures Conserved(Effect(ledger, step))
  {
    hide Total;
    var next, i := Effect(ledger, step), step.charge;
    var after := next.charges[i];
    TotalUpdate(Live, ledger.charges, i, after);
    forall id
      ensures Retained(next.entries, id) == Total(OwnedBy({id}), next.charges)
    {
      TotalUpdate(OwnedBy({id}), ledger.charges, i, after);
    }
  }

  lemma NextConserved(ledger: Ledger, step: Step)
    requires Conserved(ledger)
    ensures Next(ledger, step).Some? && Conserved(Next(ledger, step).value)
  {
    ConservedSafe(ledger, step);
    if step.Reserve? {
      ReserveConserved(ledger, step.bytes, step.owner);
    } else if Effect(ledger, step) != ledger {
      MoveConserved(ledger, step);
    }
  }

  function Empty(capacity: nat): Ledger {
    Ledger(capacity, 0, map[], [])
  }

  function Run(initial: Ledger, steps: seq<Step>): Option<Ledger> {
    if steps == [] then Some(initial)
    else
      match Run(initial, steps[..|steps| - 1])
      case None => None
      case Some(ledger) => Next(ledger, steps[|steps| - 1])
  }

  /** Byte conservation over every interleaving of reservations and drops: nothing panics and the sums agree. */
  lemma {:induction false} AlwaysConserved(capacity: nat, steps: seq<Step>)
    requires capacity <= U64_MAX
    ensures Run(Empty(capacity), steps).Some? && Conserved(Run(Empty(capacity), steps).value)
    decreases |steps|
  {
    if steps == [] {
      EmptyConserved(capacity);
    } else {
      hide Conserved;
      AlwaysConserved(capacity, steps[..|steps| - 1]);
      NextConserved(Run(Empty(capacity), steps[..|steps| - 1]).value, steps[|steps| - 1]);
    }
  }

  lemma EmptyConserved(capacity: nat)
    requires capacity <= U64_MAX
    ensures Conserved(Empty(capacity))
  {
  }

  function SumEntries(entries: Entries, ids: seq<ConnectionId>): nat {
    if ids == [] then 0 else SumEntries(entries, ids[1..]) + Retained(entries, ids[0])
  }

  lemma {:induction false} SumIsOwned(ledger: Ledger, ids: seq<ConnectionId>)
    requires Conserved(ledger)
    requires forall i, j :: 0 <= i < j < |ids| ==> ids[i] != ids[j]
    ensures SumEntries(ledger.entries, ids) == Total(OwnedBy(set id | id in ids), ledger.charges)
    decreases |ids|
  {
    if ids == [] {
      NothingOwned(ledger.charges);
    } else {
      var rest := set id | id in ids[1..];
      SumIsOwned(ledger, ids[1..]);
      assert ids[0] !in rest;
      assert (set id | id in ids) == rest + {ids[0]};
      OwnedSplits(rest, ids[0], ledger.charges);
    }
  }

  lemma {:induction false} NothingOwned(charges: seq<Charge>)
    ensures Total(OwnedBy(set id: ConnectionId | id in []), charges) == 0
    decreases |charges|
  {
    if charges != [] {
      NothingOwned(charges[..|charges| - 1]);
    }
  }

  /** All connections together never retain more than the account has in use. */
  lemma TrackersWithinUsed(ledger: Ledger, ids: seq<ConnectionId>)
    requires Conserved(ledger)
    requires forall i, j :: 0 <= i < j < |ids| ==> ids[i] != ids[j]
    ensures SumEntries(ledger.entries, ids) <= ledger.used
  {
    SumIsOwned(ledger, ids);
    var owners := set id | id in ids;
    OwnedWithinLive(owners, ledger.charges);
  }

  /**
   * A charge that fits is taken, shown for its connection while it is tracked, and given back: in between, account
   * and tracker show exactly these bytes more, and afterwards both are as before.
   */
  lemma ChargeComesBack(ledger: Ledger, bytes: nat, owner: Option<ConnectionId>)
    requires Conserved(ledger) && ledger.used + bytes <= ledger.capacity
    ensures var charge := |ledger.charges|;
      var taken := Next(ledger, Reserve(bytes, owner));
      && taken.Some? && taken.value.used == ledger.used + bytes && taken.value.entries == ledger.entries
      && var tracked := Next(taken.value, Track(charge));
      && tracked.Some? && tracked.value.used == ledger.used + bytes
      && (forall id :: Retained(tracked.value.entries, id)
            == Retained(ledger.entries, id) + if owner == Some(id) then bytes else 0)
      && var untracked := Next(tracked.value, Untrack(charge));
      && untracked.Some? && (forall id :: Retained(untracked.value.entries, id) == Retained(ledger.entries, id))
      && var back := Next(untracked.value, Release(charge));
      && back.Some? && back.value.used == ledger.used && back.value.entries == untracked.value.entries
  {
    hide Conserved;
    var charge := |ledger.charges|;
    NextConserved(ledger, Reserve(bytes, owner));
    ReserveFits(ledger, bytes, owner);
    var taken := Next(ledger, Reserve(bytes, owner)).value;
    NextConserved(taken, Track(charge));
    var tracked := Next(taken, Track(charge)).value;
    NextConserved(tracked, Untrack(charge));
    var untracked := Next(tracked, Untrack(charge)).value;
    NextConserved(untracked, Release(charge));
  }

  lemma ReserveFits(ledger: Ledger, bytes: nat, owner: Option<ConnectionId>)
    requires Conserved(ledger) && ledger.used + bytes <= ledger.capacity
    ensures var next := Next(ledger, Reserve(bytes, owner));
      && next.Some? && next.value.used == ledger.used + bytes && next.value.entries == ledger.entries
      && next.value.charges == ledger.charges + [Charge(bytes, owner, Reserved)]
  {
  }
}
