/** The worker's loop on values: every turn, the whole run, and what they keep. */
module Turns {
  import opened Wire
  import opened Records
  import opened Orders
  import opened ReadySet
  import opened Driver
  import Controls
  import Maps

  const TURN_BATCH: nat := 128
  const EVENT_BATCH: nat := 128
  /** 100 ms in nanoseconds. */
  const STOP_RECHECK: nat := 100_000_000

  /** What one accept attempt comes to, when it was made, and the clock after it. */
  datatype AcceptOutcome = Connected(registers: bool) | Drained | Retry | Pause | Fatal

  datatype Attempt = Attempt(outcome: AcceptOutcome, at: nat, after: nat)

  /** What became of an accepted connection. */
  datatype Fate = Entered | TurnedAway | NoEntry

  /** History of the listener: attempts made, and pauses entered for lack of resources or after a turn of retries. */
  datatype Mark = Tried(at: nat, outcome: AcceptOutcome, fate: Fate) | Paused(at: nat, quota: bool)

  /** History of retirements: what each connection reported at its end. */
  datatype Closed = Closed(token: Token, progress: Progress, result: Controls.CloseResult)

  /** The worker: its tables, its summary, its listener, and the history of admissions, retirements and attempts. */
  datatype Work = Work(
    tables: Tables,
    turnSteps: nat,
    summary: RunSummary,
    listenerReady: bool,
    pausedAt: Option<nat>,
    clock: nat,
    marks: seq<Mark>,
    admitted: seq<Token>,
    closed: seq<Closed>)

  /**
   * One round of the worker's loop as the outside makes it: whether a remembered wake failure shows, close calls
   * that arrive before each look at the request marks, credit that was published, how the polls end, whether a
   * stop is seen, what the listener brings, and the events of the system poll unless it fails.
   */
  datatype Turn = Turn(
    wakeFailed: bool,
    early: seq<ConnectionId>,
    control: Option<seq<ConnectionId>>,
    slotCredit: bool,
    byteCredit: bool,
    polls: seq<PollRun>,
    late: seq<ConnectionId>,
    stopped: bool,
    now: nat,
    attempts: seq<Attempt>,
    pollFails: bool,
    events: seq<Token>)

  /** How a turn, or the loop, leaves off. */
  datatype Outcome = Goes | Stopped | Broken(failure: Failure)

  // Retirement.

  /** `None` of the merge is the panic of its `expect`, which `MergeKeepsBooks` excludes. */
  function AbsorbStep(summary: RunSummary, progress: Progress): (RunSummary, bool) {
    match MergeProgress(summary, progress)
    case None => (summary, false)
    case Some((merged, complete)) => (if complete then merged else merged.(countersComplete := false), complete)
  }

  function CloseStep(summary: RunSummary, progress: Progress, result: Controls.CloseResult): (RunSummary, bool) {
    if !result.RetiredByRequest? then AbsorbStep(summary, progress)
    else if summary.closedByRequest == U64_MAX then (summary, false)
    else AbsorbStep(summary.(closedByRequest := summary.closedByRequest + 1), progress)
  }

  function RetireStep(work: Work, token: Token, result: Controls.CloseResult): (Work, bool) {
    if token !in work.tables.live then (work, true)
    else
      var progress := work.tables.live[token];
      var (summary, ok) := CloseStep(work.summary, progress, result);
      (work.(tables := Retired(work.tables, token, result), summary := summary,
             closed := work.closed + [Closed(token, progress, result)]), ok)
  }

  predicate IsLeast(tokens: set<Token>, least: Token) {
    least in tokens && forall token <- tokens :: least <= token
  }

  function Least(tokens: set<Token>): (least: Token)
    requires tokens != {}
    ensures IsLeast(tokens, least)
  {
    LeastExists(tokens);
    var least :| IsLeast(tokens, least);
    least
  }

  lemma {:induction false} LeastExists(tokens: set<Token>)
    requires tokens != {}
    ensures exists least :: IsLeast(tokens, least)
    decreases tokens
  {
    var some :| some in tokens;
    var others := tokens - {some};
    if others == {} {
      assert tokens == {some};
      assert IsLeast(tokens, some);
    } else {
      LeastExists(others);
      var other :| IsLeast(others, other);
      var least := if some < other then some else other;
      forall token | token in tokens
        ensures least <= token
      {
        if token != some { assert token in others; }
      }
      assert IsLeast(tokens, least);
    }
  }

  /** Tokens in the order of the live map. */
  function Ascending(tokens: set<Token>): (sorted: seq<Token>)
    ensures forall token :: token in sorted <==> token in tokens
    ensures Distinct(sorted) && |sorted| == |tokens|
    decreases |tokens|
  {
    if tokens == {} then []
    else [Least(tokens)] + Ascending(tokens - {Least(tokens)})
  }

  predicate Asked(tables: Tables, token: Token) {
    token in tables.live && Controls.Requested(tables.registry, tables.Id(token))
  }

  /** Retires in order until a counter fails. */
  function RetireEach(work: Work, tokens: seq<Token>, result: Controls.CloseResult): (Work, bool)
    decreases |tokens|
  {
    if tokens == [] then (work, true)
    else
      var (next, ok) := RetireStep(work, tokens[0], result);
      if ok then RetireEach(next, tokens[1..], result) else (next, false)
  }

  function AskedTokens(tables: Tables): seq<Token> {
    Ascending(set token | token in tables.live && Asked(tables, token))
  }

  function RetireAsked(work: Work): (Work, bool) {
    RetireEach(work, AskedTokens(work.tables), Controls.RetiredByRequest)
  }

  /** Shutdown goes on past a failed counter. */
  function RetireAll(work: Work): (Work, bool)
    decreases |work.tables.live|
  {
    if work.tables.live == map[] then (work, true)
    else
      var token := Least(work.tables.live.Keys);
      Maps.OneLess(work.tables.live, token);
      var (next, ok) := RetireStep(work, token, Controls.ReceiverStopped);
      var (last, rest) := RetireAll(next);
      (last, ok && rest)
  }

  // Tasks.

  function CallStep(work: Work, id: ConnectionId): Work {
    work.(tables := work.tables.(registry := Controls.Close(work.tables.registry, id).0))
  }

  function CallsStep(work: Work, ids: seq<ConnectionId>): Work
    decreases |ids|
  {
    if ids == [] then work else CallsStep(CallStep(work, ids[0]), ids[1..])
  }

  function ResumeStep(ready: Ready, reason: Scarce, credit: bool): Ready {
    if credit then ResumeHead(ready, reason).0 else ready
  }

  function CreditStep(work: Work, slotCredit: bool, byteCredit: bool): Work {
    var slots := ResumeStep(work.tables.ready, Slots, slotCredit);
    work.(tables := work.tables.(ready := ResumeStep(slots, Bytes, byteCredit)))
  }

  function PollStep(work: Work, token: Token, poll: PollRun): (Work, bool) {
    if poll.progress.counterOverflow then (work.(tables := DuringPoll(work.tables, token, poll)), false)
    else if poll.end.Finished? then
      RetireStep(work.(tables := DuringPoll(work.tables, token, poll)), token, Controls.ConnectionEnded)
    else (work.(tables := AfterPoll(work.tables, token, poll)), true)
  }

  /** Polls the run queue in order; `polled` are the tokens it took. */
  function PollsFrom(work: Work, polls: seq<PollRun>, budget: nat): (r: (Work, bool, seq<Token>))
    decreases |polls|
  {
    if budget == 0 || polls == [] then (work, true, [])
    else
      var (taken, token) := Take(work.tables.ready);
      match token
      case None => (work, true, [])
      case Some(token) =>
        var (next, ok) := PollStep(work.(tables := work.tables.(ready := taken)), token, polls[0]);
        if !ok then (next, false, [token])
        else
          var (last, fine, polled) := PollsFrom(next, polls[1..], budget - 1);
          (last, fine, [token] + polled)
  }

  function OneDispatch(work: Work, event: Token): Work {
    if event == LISTENER then work.(listenerReady := true)
    else if event == CONTROL then work
    else work.(tables := work.tables.(ready := IoReady(work.tables.ready, event)))
  }

  function DispatchStep(work: Work, events: seq<Token>): Work
    decreases |events|
  {
    if events == [] then work else DispatchStep(OneDispatch(work, events[0]), events[1..])
  }

  // The listener.

  function AcceptDelay(pausedAt: Option<nat>, now: nat): nat {
    if pausedAt.None? then 0
    else
      var elapsed := if now < pausedAt.value then 0 else now - pausedAt.value;
      if STOP_RECHECK < elapsed then 0 else STOP_RECHECK - elapsed
  }

  /** The token is used up before the registration that may fail. */
  function AdmitStep(work: Work, registers: bool): (Work, Result<Token, Failure>) {
    var token := work.tables.next;
    if token == U64_MAX then (work, Err(TokenExhausted))
    else if !registers then (work.(tables := work.tables.(next := token + 1)), Err(Io))
    else
      var entered := work.(tables := Admitted(work.tables), admitted := work.admitted + [token]);
      if work.summary.accepted == U64_MAX then (entered, Err(CounterExhausted))
      else (entered.(summary := work.summary.(accepted := work.summary.accepted + 1)), Ok(token))
  }

  function Marked(work: Work, attempt: Attempt, fate: Fate): Work {
    work.(marks := work.marks + [Tried(attempt.at, attempt.outcome, fate)], clock := attempt.after)
  }

  /** One attempt; `Ok(false)` ends the turn. */
  function AcceptStep(work: Work, attempt: Attempt): (Work, Result<bool, Failure>) {
    var summary := work.summary;
    match attempt.outcome
    case Connected(registers) =>
      if |work.tables.live| == work.tables.maxConnections then
        var tried := Marked(work, attempt, TurnedAway);
        if summary.refused == U64_MAX then (tried, Err(CounterExhausted))
        else (tried.(summary := summary.(refused := summary.refused + 1)), Ok(true))
      else
        var (next, admitted) := AdmitStep(work, registers);
        var tried := Marked(next, attempt, if next.admitted != work.admitted then Entered else NoEntry);
        (tried, if admitted.Ok? then Ok(true) else Err(admitted.error))
    case Drained => (Marked(work, attempt, NoEntry).(listenerReady := false), Ok(false))
    case Retry =>
      var tried := Marked(work, attempt, NoEntry);
      if summary.transientAcceptErrors == U64_MAX then (tried, Err(CounterExhausted))
      else (tried.(summary := summary.(transientAcceptErrors := summary.transientAcceptErrors + 1)), Ok(true))
    case Pause =>
      var tried := Marked(work, attempt, NoEntry);
      if summary.resourcePauseEntries == U64_MAX then (tried, Err(CounterExhausted))
      else
        (Rest(tried, false).(summary := summary.(resourcePauseEntries := summary.resourcePauseEntries + 1)), Ok(false))
    case Fatal => (Marked(work, attempt, NoEntry), Err(Io))
  }

  /** A pause begins now. */
  function Rest(work: Work, quota: bool): Work {
    work.(pausedAt := Some(work.clock), marks := work.marks + [Paused(work.clock, quota)])
  }

  /** A turn that only met errors worth a retry pauses like one that met a lack of resources. */
  function QuotaUsed(work: Work, progressed: bool): (Work, Result<(), Failure>) {
    if progressed then (work, Ok(()))
    else if work.summary.retryQuotaBackoffs == U64_MAX then (work, Err(CounterExhausted))
    else
      (Rest(work, true).(summary := work.summary.(retryQuotaBackoffs := work.summary.retryQuotaBackoffs + 1)), Ok(()))
  }

  /** The attempts of one turn, with how many were made; that they run out before the quota is a stop that was seen. */
  function AcceptsFrom(work: Work, attempts: seq<Attempt>, quota: nat, progressed: bool)
    : (Work, Result<(), Failure>, nat)
    decreases |attempts|
  {
    if quota == 0 then
      var (next, r) := QuotaUsed(work, progressed);
      (next, r, 0)
    else if attempts == [] then (work, Ok(()), 0)
    else
      var (next, more) := AcceptStep(work, attempts[0]);
      match more
      case Err(failure) => (next, Err(failure), 1)
      case Ok(more) =>
        if !more then (next, Ok(()), 1)
        else
          var (last, r, tries) :=
            AcceptsFrom(next, attempts[1..], quota - 1, progressed || attempts[0].outcome.Connected?);
          (last, r, tries + 1)
  }

  function Quota(work: Work): nat {
    if work.turnSteps < EVENT_BATCH then work.turnSteps else EVENT_BATCH
  }

  function AcceptTurn(work: Work, now: nat, attempts: seq<Attempt>): (Work, Result<(), Failure>, nat) {
    if !work.listenerReady || AcceptDelay(work.pausedAt, now) != 0 then (work, Ok(()), 0)
    else AcceptsFrom(work.(pausedAt := None, clock := now), attempts, Quota(work), false)
  }

  // Turns and runs.

  function LateRetire(work: Work, ids: seq<ConnectionId>): (Work, bool) {
    RetireAsked(CallsStep(work, ids))
  }

  /** Requested retirements, once more if the control flag was set meanwhile. */
  function FirstRetire(work: Work, turn: Turn): (Work, bool) {
    var (next, ok) := LateRetire(work, turn.early);
    if !ok || turn.control.None? then (next, ok) else LateRetire(next, turn.control.value)
  }

  /** The part of a turn before the listener. */
  function ServeStep(work: Work, turn: Turn): (Work, bool) {
    var (first, ok) := FirstRetire(work, turn);
    if !ok then (first, false)
    else
      var (polled, ran, _) := PollsFrom(CreditStep(first, turn.slotCredit, turn.byteCredit), turn.polls, TURN_BATCH);
      if !ran then (polled, false) else LateRetire(polled, turn.late)
  }

  function TurnStep(work: Work, turn: Turn): (Work, Outcome) {
    if turn.wakeFailed then (work, Broken(Io))
    else
      var (served, ok) := ServeStep(work, turn);
      if !ok then (served, Broken(CounterExhausted))
      else if turn.stopped then (served, Stopped)
      else
        var (accepted, r, _) := AcceptTurn(served, turn.now, turn.attempts);
        if r.Err? then (accepted, Broken(r.error))
        else if turn.pollFails then (accepted, Broken(Io))
        else (DispatchStep(accepted, turn.events), Goes)
  }

  /** Turns until one stops or breaks the loop; that they run out is a stop that was seen. */
  function DriveStep(work: Work, turns: seq<Turn>): (Work, Outcome)
    decreases |turns|
  {
    if turns == [] then (work, Stopped)
    else
      var (next, outcome) := TurnStep(work, turns[0]);
      if outcome.Goes? then DriveStep(next, turns[1..]) else (next, outcome)
  }

  function StopStep(work: Work): Work {
    work.(tables := work.tables.(registry := Controls.StopAll(work.tables.registry)))
  }

  function Flagged(work: Work, outcome: Outcome): Work {
    if outcome == Broken(CounterExhausted) then work.(summary := work.summary.(countersComplete := false)) else work
  }

  /** A whole run: the loop, the retirement of what is left, and the completion of every ticket. */
  function RunStep(work: Work, turns: seq<Turn>): (Work, Outcome) {
    var (driven, outcome) := DriveStep(work, turns);
    var (emptied, ok) := RetireAll(Flagged(driven, outcome));
    (StopStep(emptied), if outcome.Broken? || ok then outcome else Broken(CounterExhausted))
  }

  function NewWork(instance: nat, maxConnections: nat, turnSteps: nat): Work {
    Work(Tables(instance, maxConnections, Ready(map[], [], [], [], maxConnections), Controls.Open(instance), map[],
                FIRST_CONNECTION),
         turnSteps, NEW_SUMMARY, true, None, 0, [], [], [])
  }
}
