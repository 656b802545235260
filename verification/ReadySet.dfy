/**
 * Task readiness of one worker: states, the run queue and the two waiter orders, changed one locked block at a
 * time.
 */
module ReadySet {
  import opened Wire
  import opened Orders

  datatype WaitReason = Kernel | Slots | Bytes

  /** The reasons that name a shared resource. */
  type Scarce = reason: WaitReason | !reason.Kernel? witness Slots

  datatype TaskState = Running | Notified | Queued | Waiting(reason: WaitReason)

  /** The value of the ready set: what its maps and links stand for. */
  datatype Ready = Ready(
    states: map<Token, TaskState>,
    queue: seq<Token>,
    slotWaiters: seq<Token>,
    byteWaiters: seq<Token>,
    capacity: nat)
  {
    function Waiters(reason: WaitReason): seq<Token>
      requires !reason.Kernel?
    {
      if reason.Slots? then slotWaiters else byteWaiters
    }

    function WithWaiters(reason: WaitReason, waiters: seq<Token>): Ready
      requires !reason.Kernel?
    {
      if reason.Slots? then this.(slotWaiters := waiters) else this.(byteWaiters := waiters)
    }

    /** The token owns a turn: it stands in the run queue. */
    predicate Runnable(token: Token) {
      token in states && (states[token].Queued? || states[token].Notified?)
    }

    predicate Parked(token: Token) {
      token in states && states[token].Waiting?
    }

    /** Exactly the tasks that own a turn stand in the run queue, once each. */
    ghost predicate Sound() {
      && Distinct(queue) && Distinct(slotWaiters) && Distinct(byteWaiters)
      && (forall token :: token in queue <==> Runnable(token))
      && |states| <= capacity
    }

    /** Every waiter of a resource is a live task, except perhaps one. */
    predicate Live(reason: WaitReason, except: set<Token>)
      requires !reason.Kernel?
    {
      forall token <- Waiters(reason) :: token in states || token in except
    }

    ghost predicate Consistent() {
      Sound() && Live(Slots, {}) && Live(Bytes, {})
    }
  }

  function Enqueue(ready: Ready, token: Token): (Ready, bool) {
    if token !in ready.states || ready.Runnable(token) then (ready, false)
    else
      var next := if ready.states[token].Running? then Notified else Queued;
      (ready.(states := ready.states[token := next], queue := Appended(ready.queue, token)), true)
  }

  function ResumeHead(ready: Ready, reason: WaitReason): (Ready, bool)
    requires !reason.Kernel?
  {
    var waiters := ready.Waiters(reason);
    if waiters == [] then (ready, false) else Enqueue(ready, waiters[0])
  }

  function RemoveRequest(ready: Ready, token: Token, reason: WaitReason): (Ready, bool)
    requires !reason.Kernel?
  {
    var waiters := ready.Waiters(reason);
    var removed := ready.WithWaiters(reason, Without(waiters, token));
    if First(waiters) == Some(token) then ResumeHead(removed, reason) else (removed, false)
  }

  function Insert(ready: Ready, token: Token): Ready {
    ready.(states := ready.states[token := Queued], queue := Appended(ready.queue, token))
  }

  function Take(ready: Ready): (Ready, Option<Token>) {
    if ready.queue == [] then (ready, None)
    else
      var token := ready.queue[0];
      (ready.(states := ready.states[token := Running], queue := ready.queue[1..]), Some(token))
  }

  function IoReady(ready: Ready, token: Token): Ready {
    if token in ready.states && ready.states[token] == Waiting(Kernel) then Enqueue(ready, token).0 else ready
  }

  function Park(ready: Ready, token: Token, reason: WaitReason): Ready
    requires token in ready.states
  {
    var parked :=
      if ready.states[token].Notified? then ready.(states := ready.states[token := Queued])
      else ready.(states := ready.states[token := Waiting(reason)], queue := Without(ready.queue, token));
    if reason.Kernel? then parked else parked.WithWaiters(reason, Appended(parked.Waiters(reason), token))
  }

  /** Joins the order of a resource and says whether the token is its head. */
  function RequestTurn(ready: Ready, token: Token, reason: WaitReason): (Ready, bool)
    requires !reason.Kernel?
  {
    var waiters := Appended(ready.Waiters(reason), token);
    (ready.WithWaiters(reason, waiters), waiters[0] == token)
  }

  function Retire(ready: Ready, token: Token): (Ready, bool) {
    var gone := ready.(states := ready.states - {token}, queue := Without(ready.queue, token));
    var (unslotted, slots) := RemoveRequest(gone, token, Slots);
    var (unlinked, bytes) := RemoveRequest(unslotted, token, Bytes);
    (unlinked, slots || bytes)
  }

  /** Distinct members of a set are no more than the set. */
  lemma {:induction false} DistinctBounded(tokens: seq<Token>, members: set<Token>)
    requires Distinct(tokens) && forall token <- tokens :: token in members
    ensures |tokens| <= |members|
    decreases |tokens|
  {
    if tokens != [] {
      var last := tokens[|tokens| - 1];
      DistinctBounded(tokens[..|tokens| - 1], members - {last});
    }
  }

  /** Each live task owns one turn at most, so a task about to be queued finds room. */
  lemma RoomInQueue(ready: Ready, token: Token)
    requires ready.Sound() && token in ready.states && !ready.Runnable(token)
    ensures |ready.queue| < ready.capacity
  {
    DistinctBounded(ready.queue + [token], ready.states.Keys);
    assert |ready.states.Keys| == |ready.states|;
  }

  /** What a block keeps that changes no task but `token` and no order. */
  ghost predicate Wakes(before: Ready, after: Ready) {
    && after.Sound()
    && after.states.Keys == before.states.Keys
    && after.capacity == before.capacity
    && (forall token :: token in before.states ==> after.states[token] == before.states[token] || after.Runnable(token))
    && (forall token :: before.Runnable(token) ==> after.states[token] == before.states[token])
  }

  lemma EnqueueSound(ready: Ready, token: Token)
    requires ready.Sound()
    ensures var (next, inserted) := Enqueue(ready, token);
      && Wakes(ready, next)
      && (inserted <==> token in ready.states && !ready.Runnable(token))
      && (token in ready.states ==> next.Runnable(token))
      && (forall other :: other in ready.states && other != token ==> next.states[other] == ready.states[other])
      && next.slotWaiters == ready.slotWaiters && next.byteWaiters == ready.byteWaiters
  {
    var next := Enqueue(ready, token).0;
    if token in ready.states && !ready.Runnable(token) {
      assert next.states.Keys == ready.states.Keys;
      assert |next.states.Keys| == |next.states| && |ready.states.Keys| == |ready.states|;
      assert forall other :: other in next.queue <==> other in ready.queue || other == token;
    }
  }

  /** After a resume the head of the order, if live, owns a turn. */
  lemma ResumeSound(ready: Ready, reason: WaitReason)
    requires ready.Sound() && !reason.Kernel?
    ensures var next := ResumeHead(ready, reason).0;
      && Wakes(ready, next)
      && (ready.Waiters(reason) != [] && ready.Waiters(reason)[0] in ready.states ==>
            next.Runnable(ready.Waiters(reason)[0]))
      && next.slotWaiters == ready.slotWaiters && next.byteWaiters == ready.byteWaiters
  {
    hide Ready.Sound, Enqueue, Wakes;
    if ready.Waiters(reason) != [] {
      EnqueueSound(ready, ready.Waiters(reason)[0]);
    } else {
      WakesItself(ready);
    }
  }

  lemma WakesItself(ready: Ready)
    requires ready.Sound()
    ensures Wakes(ready, ready)
  {
  }

  /** Removal of a request: the order loses the token, and a new head owns a turn. */
  lemma RemoveSound(ready: Ready, token: Token, reason: WaitReason)
    requires ready.Sound() && !reason.Kernel? && ready.Live(reason, {token})
    ensures var next := RemoveRequest(ready, token, reason).0;
      && Wakes(ready, next)
      && next.Waiters(reason) == Without(ready.Waiters(reason), token)
      && next.Live(reason, {})
      && (reason.Slots? ==> next.byteWaiters == ready.byteWaiters)
      && (reason.Bytes? ==> next.slotWaiters == ready.slotWaiters)
      && (First(ready.Waiters(reason)) == Some(token) && next.Waiters(reason) != [] ==>
            next.Runnable(next.Waiters(reason)[0]))
  {
    var waiters := ready.Waiters(reason);
    WithoutMembers(waiters, token);
    hide Without;
    var removed := ready.WithWaiters(reason, Without(waiters, token));
    assert removed.Sound() && removed.Live(reason, {});
    ResumeSound(removed, reason);
    WakesItself(removed);
    assert Wakes(ready, RemoveRequest(ready, token, reason).0);
  }

  lemma InsertConsistent(ready: Ready, token: Token)
    requires ready.Consistent() && token !in ready.states && |ready.states| < ready.capacity
    ensures Insert(ready, token).Consistent()
  {
    var next := Insert(ready, token);
    assert token !in ready.queue;
    assert next.queue == ready.queue + [token];
    assert forall other :: other in next.queue <==> other in ready.queue || other == token;
  }

  lemma TakeConsistent(ready: Ready)
    requires ready.Consistent()
    ensures Take(ready).0.Consistent() && Take(ready).0.states.Keys == ready.states.Keys
    ensures Take(ready).1.Some? ==> ready.Runnable(Take(ready).1.value)
  {
    if ready.queue != [] {
      var next, token := Take(ready).0, ready.queue[0];
      assert token in ready.queue;
      assert ready.queue == [token] + next.queue;
      assert next.states.Keys == ready.states.Keys;
      assert |next.states.Keys| == |next.states| && |ready.states.Keys| == |ready.states|;
      assert forall other :: other in next.queue <==> other in ready.queue && other != token;
    }
  }

  /** A parked task has left the run queue, unless a wake during its poll already gave it a turn. */
  lemma ParkConsistent(ready: Ready, token: Token, reason: WaitReason)
    requires ready.Consistent() && token in ready.states
    ensures var next := Park(ready, token, reason);
      && next.Consistent() && next.states.Keys == ready.states.Keys
      && next.states[token] == (if ready.states[token].Notified? then Queued else Waiting(reason))
      && (forall other :: other in ready.states && other != token ==> next.states[other] == ready.states[other])
      && next.slotWaiters == (if reason.Slots? then Appended(ready.slotWaiters, token) else ready.slotWaiters)
      && next.byteWaiters == (if reason.Bytes? then Appended(ready.byteWaiters, token) else ready.byteWaiters)
  {
    AppendedMembers(ready.slotWaiters, token);
    AppendedMembers(ready.byteWaiters, token);
    hide Without, Appended, Distinct;
    ParkSound(ready, token, reason);
    hide Ready.Sound;
  }

  lemma ParkSound(ready: Ready, token: Token, reason: WaitReason)
    requires ready.Consistent() && token in ready.states
    ensures Park(ready, token, reason).Sound() && Park(ready, token, reason).states.Keys == ready.states.Keys
  {
    hide Without, Appended, Distinct;
    AppendedMembers(ready.slotWaiters, token);
    AppendedMembers(ready.byteWaiters, token);
    if ready.states[token].Notified? {
      StateSet(ready.states, token, Queued);
    } else {
      WithoutMembers(ready.queue, token);
      StateSet(ready.states, token, Waiting(reason));
    }
  }

  lemma StateSet(states: map<Token, TaskState>, token: Token, state: TaskState)
    requires token in states
    ensures states[token := state].Keys == states.Keys && |states[token := state]| == |states|
  {
    var next := states[token := state];
    assert next.Keys == states.Keys;
    assert |next.Keys| == |next| && |states.Keys| == |states|;
  }

  lemma RequestConsistent(ready: Ready, token: Token, reason: WaitReason)
    requires ready.Consistent() && token in ready.states && !reason.Kernel?
    ensures RequestTurn(ready, token, reason).0.Consistent()
  {
    var next := RequestTurn(ready, token, reason).0;
    assert next.states == ready.states && next.queue == ready.queue;
  }

  /** A retired task leaves nothing behind, and its places pass to the next in line. */
  lemma RetireConsistent(ready: Ready, token: Token)
    requires ready.Consistent()
    ensures var next := Retire(ready, token).0;
      && next.Consistent() && next.states.Keys == ready.states.Keys - {token}
      && (forall resource :: resource == Slots || resource == Bytes ==>
            && next.Waiters(resource) == Without(ready.Waiters(resource), token)
            && (First(ready.Waiters(resource)) == Some(token) && next.Waiters(resource) != [] ==>
                  next.Runnable(next.Waiters(resource)[0])))
      && (forall other :: other in next.states ==> next.states[other] == ready.states[other] || next.Runnable(other))
  {
    var gone := ready.(states := ready.states - {token}, queue := Without(ready.queue, token));
    RetiredSound(ready, token);
    hide Ready.Sound, Without, RemoveRequest;
    RemoveSound(gone, token, Slots);
    var unslotted := RemoveRequest(gone, token, Slots).0;
    RemoveSound(unslotted, token, Bytes);
    var next := RemoveRequest(unslotted, token, Bytes).0;
    assert next == Retire(ready, token).0;
  }

  lemma RetiredSound(ready: Ready, token: Token)
    requires ready.Consistent()
    ensures var gone := ready.(states := ready.states - {token}, queue := Without(ready.queue, token));
      gone.Sound() && gone.Live(Slots, {token}) && gone.Live(Bytes, {token})
  {
    var gone := ready.(states := ready.states - {token}, queue := Without(ready.queue, token));
    WithoutMembers(ready.queue, token);
    hide Without;
    assert gone.states.Keys == ready.states.Keys - {token};
    assert |gone.states.Keys| == |gone.states| && |ready.states.Keys| == |ready.states|;
  }

  /** A locked block of a task's own poll: its request joins an order, or ends, granted or given up. */
  datatype Block = Join(reason: Scarce) | Leave(reason: Scarce)

  function Blocks(ready: Ready, token: Token, blocks: seq<Block>): Ready
    decreases |blocks|
  {
    if blocks == [] then ready
    else
      match blocks[0]
      case Join(reason) => Blocks(RequestTurn(ready, token, reason).0, token, blocks[1..])
      case Leave(reason) => Blocks(RemoveRequest(ready, token, reason).0, token, blocks[1..])
  }

  /** A request stands after some blocks: joined and not ended since, or standing before and never ended. */
  predicate StandsAfter(stood: bool, blocks: seq<Block>, reason: Scarce) {
    || (exists i :: 0 <= i < |blocks| && blocks[i] == Join(reason) && NoLeave(blocks, i + 1, reason))
    || (stood && NoLeave(blocks, 0, reason))
  }

  predicate NoLeave(blocks: seq<Block>, from: nat, reason: Scarce) {
    forall j :: from <= j < |blocks| ==> blocks[j] != Leave(reason)
  }

  lemma StandsOneMore(stood: bool, blocks: seq<Block>, reason: Scarce)
    requires blocks != []
    ensures var first, rest := blocks[0], blocks[1..];
      var stands := first == Join(reason) || (stood && first != Leave(reason));
      StandsAfter(stood, blocks, reason) <==> StandsAfter(stands, rest, reason)
  {
    var first, rest := blocks[0], blocks[1..];
    forall i | 0 <= i <= |rest|
      ensures NoLeave(rest, i, reason) <==> NoLeave(blocks, i + 1, reason)
    {
      assert forall j :: i <= j < |rest| ==> rest[j] == blocks[j + 1];
      assert forall j :: i + 1 <= j < |blocks| ==> blocks[j] == rest[j - 1];
    }
    assert forall i :: 0 <= i < |rest| ==> rest[i] == blocks[i + 1];
    assert NoLeave(blocks, 0, reason) <==> first != Leave(reason) && NoLeave(blocks, 1, reason);
    if i :| 0 <= i < |blocks| && blocks[i] == Join(reason) && NoLeave(blocks, i + 1, reason) {
      assert i > 0 ==> rest[i - 1] == Join(reason) && NoLeave(rest, i, reason);
    }
    if i :| 0 <= i < |rest| && rest[i] == Join(reason) && NoLeave(rest, i + 1, reason) {
      assert blocks[i + 1] == Join(reason) && NoLeave(blocks, i + 2, reason);
    }
  }

  /** After its poll a task stands in exactly the orders that it joined and did not leave; all others keep theirs. */
  lemma {:induction false} BlocksStand(ready: Ready, token: Token, blocks: seq<Block>, reason: Scarce)
    requires Distinct(ready.Waiters(reason))
    ensures var before, after := ready.Waiters(reason), Blocks(ready, token, blocks).Waiters(reason);
      && Distinct(after) && Without(after, token) == Without(before, token)
      && (token in after <==> StandsAfter(token in before, blocks, reason))
    decreases |blocks|
  {
    hide StandsAfter, Without, Appended, Distinct, RemoveRequest, RequestTurn;
    if blocks == [] {
      NoBlocksStand(token in ready.Waiters(reason), reason);
    } else {
      BlockStands(ready, token, blocks[0], reason);
      StandsOneMore(token in ready.Waiters(reason), blocks, reason);
      var next := if blocks[0].Join? then RequestTurn(ready, token, blocks[0].reason).0
                  else RemoveRequest(ready, token, blocks[0].reason).0;
      BlocksStand(next, token, blocks[1..], reason);
    }
  }

  lemma NoBlocksStand(stood: bool, reason: Scarce)
    ensures StandsAfter(stood, [], reason) <==> stood
  {
  }

  lemma BlockOrder(ready: Ready, token: Token, block: Block, reason: Scarce)
    ensures var next := if block.Join? then RequestTurn(ready, token, block.reason).0
                        else RemoveRequest(ready, token, block.reason).0;
      next.Waiters(reason) ==
        if block == Join(reason) then Appended(ready.Waiters(reason), token)
        else if block == Leave(reason) then Without(ready.Waiters(reason), token)
        else ready.Waiters(reason)
  {
    hide Without, Appended;
  }

  lemma BlockStands(ready: Ready, token: Token, block: Block, reason: Scarce)
    requires Distinct(ready.Waiters(reason))
    ensures var next := if block.Join? then RequestTurn(ready, token, block.reason).0
                        else RemoveRequest(ready, token, block.reason).0;
      var before, after := ready.Waiters(reason), next.Waiters(reason);
      && Distinct(after) && Without(after, token) == Without(before, token)
      && (token in after <==> block == Join(reason) || (token in before && block != Leave(reason)))
  {
    hide Without, Appended, Distinct, RequestTurn, RemoveRequest, Ready.Waiters;
    var waiters := ready.Waiters(reason);
    WithoutMembers(waiters, token);
    AppendedMembers(waiters, token);
    WithoutAppended(waiters, token);
    WithoutTwice(waiters, token);
    BlockOrder(ready, token, block, reason);
  }

  lemma WithoutAppended(tokens: seq<Token>, token: Token)
    requires Distinct(tokens)
    ensures Without(Appended(tokens, token), token) == Without(tokens, token)
  {
    if token !in tokens {
      var more := tokens + [token];
      AppendedMembers(tokens, token);
      PositionUnique(more, |tokens|);
    }
  }

  lemma WithoutTwice(tokens: seq<Token>, token: Token)
    requires Distinct(tokens)
    ensures Without(Without(tokens, token), token) == Without(tokens, token)
  {
    WithoutMembers(tokens, token);
  }

  /** What a block of `token` keeps: its own state, the set of tasks, and every turn that another task owns. */
  ghost predicate Keeps(before: Ready, after: Ready, token: Token) {
    && after.Consistent() && after.states.Keys == before.states.Keys && after.capacity == before.capacity
    && (token in before.states ==> after.states[token] == before.states[token])
    && (forall other :: other in before.states ==>
          after.states[other] == before.states[other] || after.Runnable(other))
  }

  lemma LeaveKeeps(ready: Ready, token: Token, reason: Scarce)
    requires ready.Consistent() && token in ready.states
    ensures Keeps(ready, RemoveRequest(ready, token, reason).0, token)
  {
    RemoveSound(ready, token, reason);
    var waiters := ready.Waiters(reason);
    var removed := ready.WithWaiters(reason, Without(waiters, token));
    WithoutMembers(waiters, token);
    if First(waiters) == Some(token) && removed.Waiters(reason) != [] {
      var head := removed.Waiters(reason)[0];
      assert head in removed.Waiters(reason);
      assert removed.Sound();
      EnqueueSound(removed, head);
    }
    hide Without, Enqueue, Ready.Sound;
  }

  lemma JoinKeeps(ready: Ready, token: Token, reason: Scarce)
    requires ready.Consistent() && token in ready.states
    ensures Keeps(ready, RequestTurn(ready, token, reason).0, token)
  {
    RequestConsistent(ready, token, reason);
  }

  lemma KeepsTwice(first: Ready, second: Ready, third: Ready, token: Token)
    requires token in first.states && Keeps(first, second, token) && Keeps(second, third, token)
    ensures Keeps(first, third, token)
  {
    hide Ready.Consistent;
  }

  lemma {:induction false} BlocksKeep(ready: Ready, token: Token, blocks: seq<Block>)
    requires ready.Consistent() && token in ready.states
    ensures Keeps(ready, Blocks(ready, token, blocks), token)
    decreases |blocks|
  {
    if blocks != [] {
      var next := ready;
      match blocks[0] {
        case Join(reason) =>
          JoinKeeps(ready, token, reason);
          next := RequestTurn(ready, token, reason).0;
        case Leave(reason) =>
          LeaveKeeps(ready, token, reason);
          next := RemoveRequest(ready, token, reason).0;
      }
      BlocksKeep(next, token, blocks[1..]);
      KeepsTwice(ready, next, Blocks(next, token, blocks[1..]), token);
    }
  }

  /** The scheduler's shared state. Each method is one locked block. */
  class Scheduler {
    var states: map<Token, TaskState>
    const queue: Order
    const slotWaiters: Order
    const byteWaiters: Order
    const capacity: nat

    ghost predicate Valid()
      reads this, queue, slotWaiters, byteWaiters
    {
      && queue != slotWaiters && queue != byteWaiters && slotWaiters != byteWaiters
      && queue.Valid() && slotWaiters.Valid() && byteWaiters.Valid()
    }

    ghost function Value(): Ready
      reads this, queue, slotWaiters, byteWaiters
    {
      Ready(states, queue.tokens, slotWaiters.tokens, byteWaiters.tokens, capacity)
    }

    constructor (capacity: nat)
      ensures Valid() && Value() == Ready(map[], [], [], [], capacity)
      ensures fresh(queue) && fresh(slotWaiters) && fresh(byteWaiters)
    {
      states, this.capacity := map[], capacity;
      queue := new Order();
      slotWaiters := new Order();
      byteWaiters := new Order();
    }

    function Requests(reason: WaitReason): Order
      requires !reason.Kernel?
    {
      if reason.Slots? then slotWaiters else byteWaiters
    }

    /** A wake. The run queue always has room for the task it adds. */
    method WakeTask(token: Token) returns (inserted: bool)
      requires Valid() && Value().Sound()
      modifies this, queue
      ensures Valid() && (Value(), inserted) == Enqueue(old(Value()), token)
    {
      if token !in states || states[token].Queued? || states[token].Notified? {
        return false;
      }
      RoomInQueue(Value(), token);
      assert |queue.tokens| < capacity;
      states := states[token := if states[token].Running? then Notified else Queued];
      queue.PushBack(token);
      inserted := true;
    }

    method ResumeFirst(reason: WaitReason) returns (inserted: bool)
      requires Valid() && Value().Sound() && !reason.Kernel?
      modifies this, queue
      ensures Valid() && (Value(), inserted) == ResumeHead(old(Value()), reason)
    {
      var first := Requests(reason).first;
      inserted := false;
      if first.Some? {
        inserted := WakeTask(first.value);
      }
    }

    method FinishRequest(token: Token, reason: WaitReason) returns (inserted: bool)
      requires Valid() && Value().Sound() && !reason.Kernel?
      modifies this, queue, slotWaiters, byteWaiters
      ensures Valid() && (Value(), inserted) == RemoveRequest(old(Value()), token, reason)
    {
      var requests := Requests(reason);
      var wasHead := requests.first == Some(token);
      WithoutMembers(requests.tokens, token);
      requests.Remove(token);
      inserted := false;
      if wasHead {
        inserted := ResumeFirst(reason);
      }
    }

    method InsertTask(token: Token)
      requires Valid() && Value().Consistent()
      requires token !in states && |states| < capacity
      modifies this, queue
      ensures Valid() && Value() == Insert(old(Value()), token)
    {
      states := states[token := Queued];
      queue.PushBack(token);
    }

    /** The next task to poll; a queued task is always live. */
    method TakeTask() returns (token: Option<Token>)
      requires Valid() && Value().Consistent()
      modifies this, queue
      ensures Valid() && (Value(), token) == Take(old(Value()))
    {
      assert queue.tokens != [] ==> queue.tokens[0] in queue.tokens;
      token := queue.PopFront();
      if token.Some? {
        assert token.value in states;
        states := states[token.value := Running];
      }
    }

    method IoWake(token: Token)
      requires Valid() && Value().Sound()
      modifies this, queue
      ensures Valid() && Value() == IoReady(old(Value()), token)
    {
      if token in states && states[token] == Waiting(Kernel) {
        var _ := WakeTask(token);
      }
    }

    method ParkTask(token: Token, reason: WaitReason)
      requires Valid() && token in states
      modifies this, queue, slotWaiters, byteWaiters
      ensures Valid() && Value() == Park(old(Value()), token, reason)
    {
      if states[token].Notified? {
        states := states[token := Queued];
      } else {
        queue.Remove(token);
        states := states[token := Waiting(reason)];
      }
      if !reason.Kernel? {
        Requests(reason).PushBack(token);
      }
    }

    method JoinRequests(token: Token, reason: WaitReason) returns (head: bool)
      requires Valid() && token in states && !reason.Kernel?
      modifies slotWaiters, byteWaiters
      ensures Valid() && (Value(), head) == RequestTurn(old(Value()), token, reason)
    {
      var requests := Requests(reason);
      requests.PushBack(token);
      head := requests.first == Some(token);
    }

    method RetireTask(token: Token) returns (inserted: bool)
      requires Valid() && Value().Consistent()
      modifies this, queue, slotWaiters, byteWaiters
      ensures Valid() && (Value(), inserted) == Retire(old(Value()), token)
    {
      RetiredSound(Value(), token);
      ghost var gone := Value().(states := states - {token}, queue := Without(queue.tokens, token));
      RemoveSound(gone, token, Slots);
      states := states - {token};
      queue.Remove(token);
      var slots := FinishRequest(token, Slots);
      var bytes := FinishRequest(token, Bytes);
      inserted := slots || bytes;
    }
  }
}
