/** Who is let in: what becomes of every peer that an accept turn meets. */
module EntryLaws {
  import opened Wire
  import opened Records
  import opened Orders
  import opened ReadySet
  import opened Driver
  import opened Turns
  import opened TurnLaws
  import opened ListenerLaws
  import Controls

  /** The limit on live connections is reached. */
  predicate Full(work: Work) {
    |work.tables.live| == work.tables.maxConnections
  }

  /** A connection is at work: live, with an entry that nobody asked to close, and the owner of a turn. */
  predicate AtWork(tables: Tables, token: Token) {
    && token in tables.live && tables.live[token] == NO_PROGRESS
    && tables.ready.Runnable(token)
    && tables.Id(token) in tables.registry.entries && !Controls.Requested(tables.registry, tables.Id(token))
  }

  /** A token of before stands as it stood. */
  predicate StaysAs(before: Tables, after: Tables, token: Token) {
    && after.instance == before.instance
    && (token in before.live ==> token in after.live && after.live[token] == before.live[token])
    && (token in before.ready.states ==>
          token in after.ready.states && after.ready.states[token] == before.ready.states[token])
    && (before.Id(token) in before.registry.entries ==>
          && before.Id(token) in after.registry.entries
          && after.registry.entries[before.Id(token)] == before.registry.entries[before.Id(token)])
  }

  /** What becomes of one attempt: a peer is turned away exactly at the limit, and else it is at work. */
  ghost predicate Fated(before: Work, after: Work, attempt: Attempt, more: Result<bool, Failure>)
    requires |after.marks| > |before.marks| && after.marks[|before.marks|].Tried?
  {
    var fate, token := after.marks[|before.marks|].fate, before.tables.next;
    && (forall other: Token :: other != token ==> StaysAs(before.tables, after.tables, other))
    && after.tables.maxConnections == before.tables.maxConnections
    && match attempt.outcome
       case Connected(registers) =>
         && (fate.TurnedAway? <==> Full(before))
         && (fate.Entered? <==> !Full(before) && token != U64_MAX && registers)
         && Enters(before, after, fate.Entered?)
         && after.tables.next == (if fate.TurnedAway? || token == U64_MAX then token else token + 1)
         && (more == Err(TokenExhausted) <==> !Full(before) && token == U64_MAX)
         && (more == Err(Io) <==> fate.NoEntry? && token != U64_MAX)
         && (more == Err(CounterExhausted) <==>
               if fate.TurnedAway? then before.summary.refused == U64_MAX
               else fate.Entered? && before.summary.accepted == U64_MAX)
       case _ =>
         && fate.NoEntry? && Enters(before, after, false) && after.tables == before.tables
         && (more == Err(CounterExhausted) ==>
               before.summary.transientAcceptErrors == U64_MAX || before.summary.resourcePauseEntries == U64_MAX)
  }

  /** The next token enters all tables, or none changes but for the tokens that are used up. */
  predicate Enters(before: Work, after: Work, entered: bool) {
    var token := before.tables.next;
    if entered then
      && AtWork(after.tables, token) && after.admitted == before.admitted + [token]
      && after.tables.live.Keys == before.tables.live.Keys + {token} && after.tables.next == token + 1
    else
      && after.admitted == before.admitted && after.tables == before.tables.(next := after.tables.next)
      && after.tables.next >= before.tables.next
  }

  lemma AdmittedAtWork(tables: Tables)
    ensures AtWork(Admitted(tables), tables.next)
    ensures forall other: Token :: other != tables.next ==> StaysAs(tables, Admitted(tables), other)
  {
  }

  lemma AdmitFates(work: Work, registers: bool)
    ensures var (next, r) := AdmitStep(work, registers);
      && Enters(work, next, work.tables.next != U64_MAX && registers)
      && (next.admitted != work.admitted <==> work.tables.next != U64_MAX && registers)
      && next.tables.next == (if work.tables.next == U64_MAX then U64_MAX else work.tables.next + 1)
      && (forall other: Token :: other != work.tables.next ==> StaysAs(work.tables, next.tables, other))
      && next.tables.maxConnections == work.tables.maxConnections && next.marks == work.marks
      && (r == Err(TokenExhausted) <==> work.tables.next == U64_MAX)
      && (r == Err(Io) <==> work.tables.next != U64_MAX && !registers)
      && (r == Err(CounterExhausted) <==>
            work.tables.next != U64_MAX && registers && work.summary.accepted == U64_MAX)
  {
    AdmittedAtWork(work.tables);
    AdmittedShape(work.tables);
    hide Admitted, AtWork;
  }

  lemma AcceptFates(work: Work, attempt: Attempt)
    ensures var (next, more) := AcceptStep(work, attempt);
      && |next.marks| > |work.marks| && next.marks[|work.marks|].Tried?
      && Fated(work, next, attempt, more)
  {
    hide AdmitStep, AtWork, Enters, StaysAs;
    SameStays(work.tables);
    NoneEnters(work, AcceptStep(work, attempt).0);
    match attempt.outcome
    case Connected(registers) =>
      AdmitFates(work, registers);
      var entered := AdmitStep(work, registers).0;
      SameEnters(work, entered, AcceptStep(work, attempt).0);
    case _ =>
  }

  lemma SameStays(tables: Tables)
    ensures forall token: Token :: StaysAs(tables, tables, token)
  {
  }

  lemma NoneEnters(before: Work, after: Work)
    ensures after.tables == before.tables && after.admitted == before.admitted ==> Enters(before, after, false)
  {
  }

  lemma SameEnters(before: Work, left: Work, right: Work)
    ensures left.tables == right.tables && left.admitted == right.admitted ==>
      forall entered: bool :: Enters(before, left, entered) == Enters(before, right, entered)
  {
  }

  // A whole accept turn.

  /** How many peers entered in a part of the history. */
  function EntriesIn(marks: seq<Mark>, from: nat, to: nat): nat
    requires from <= to <= |marks|
  {
    Count(Entries, marks[from..to])
  }

  /** The attempt at `j` of a turn: a peer is turned away exactly when those before it have filled the last place. */
  predicate PeerFated(room: int, marks: seq<Mark>, first: nat, end: nat, j: nat, r: Result<(), Failure>)
    requires first <= j < end <= |marks|
  {
    && marks[j].Tried?
    && if marks[j].outcome.Connected? then
         && (marks[j].fate.TurnedAway? <==> EntriesIn(marks, first, j) == room)
         && (marks[j].fate.NoEntry? ==> j == end - 1 && (r == Err(TokenExhausted) || r == Err(Io)))
         && (marks[j].fate.Entered? ==> marks[j].outcome.registers)
       else marks[j].fate.NoEntry?
  }

  predicate PeersFated(room: int, marks: seq<Mark>, first: nat, end: nat, r: Result<(), Failure>)
    requires first <= end <= |marks|
  {
    forall j :: first <= j < end ==> PeerFated(room, marks, first, end, j, r)
  }

  /** The places that are left. */
  function Room(tables: Tables): int {
    tables.maxConnections - |tables.live|
  }

  /** The admissions of a turn are appended, one for each peer that entered. */
  predicate Grown(known: seq<Token>, admitted: seq<Token>, entries: nat) {
    known <= admitted && |admitted| == |known| + entries
  }

  /** Tokens from `from` on are new, and at work. */
  predicate NewAtWork(live: set<Token>, tables: Tables, admitted: seq<Token>, from: nat) {
    forall i :: from <= i < |admitted| ==> admitted[i] !in live && AtWork(tables, admitted[i])
  }

  /** Nobody else came in. */
  predicate NobodyElse(live: set<Token>, now: set<Token>, admitted: seq<Token>, from: nat)
    requires from <= |admitted|
  {
    forall token <- now :: token in live || token in admitted[from..]
  }

  predicate AllStay(before: Tables, after: Tables) {
    forall token <- before.live.Keys :: StaysAs(before, after, token)
  }

  /** What an accept turn does to its peers, to the admissions and to those who were live. */
  predicate TurnFated(before: Work, after: Work, tries: nat, r: Result<(), Failure>) {
    var first, known := |before.marks|, |before.admitted|;
    && first + tries <= |after.marks|
    && Grown(before.admitted, after.admitted, EntriesIn(after.marks, first, first + tries))
    && NewAtWork(before.tables.live.Keys, after.tables, after.admitted, known)
    && NobodyElse(before.tables.live.Keys, after.tables.live.Keys, after.admitted, known)
    && AllStay(before.tables, after.tables)
    && PeersFated(Room(before.tables), after.marks, first, first + tries, r)
    && after.tables.maxConnections == before.tables.maxConnections
  }

  lemma {:induction false} CountFront(kind: Kind, mark: Mark, marks: seq<Mark>)
    ensures Count(kind, [mark] + marks) == One(Counts(kind, mark)) + Count(kind, marks)
    decreases |marks|
  {
    var all := [mark] + marks;
    if marks == [] {
      assert all[..0] == [];
    } else {
      assert all[..|marks|] == [mark] + marks[..|marks| - 1];
      CountFront(kind, mark, marks[..|marks| - 1]);
    }
  }

  lemma EntriesStep(marks: seq<Mark>, from: nat, to: nat)
    requires from < to <= |marks|
    ensures EntriesIn(marks, from, to) == One(Counts(Entries, marks[from])) + EntriesIn(marks, from + 1, to)
  {
    CountFront(Entries, marks[from], marks[from + 1..to]);
    assert marks[from..to] == [marks[from]] + marks[from + 1..to];
  }

  lemma StaysTwice(first: Tables, second: Tables, third: Tables, token: Token)
    requires StaysAs(first, second, token) && StaysAs(second, third, token)
    ensures StaysAs(first, third, token)
    ensures AtWork(second, token) ==> AtWork(third, token)
  {
  }

  lemma LiveGrows(work: Work, next: Work, attempt: Attempt)
    requires Recorded(work, next, attempt, Ok(true)) && Fated(work, next, attempt, Ok(true))
    requires work.tables.next !in work.tables.live
    ensures |next.marks| == |work.marks| + 1
    ensures |next.tables.live| == |work.tables.live| + One(Counts(Entries, next.marks[|work.marks|]))
    ensures next.marks[|work.marks|].fate.Entered? ==>
      next.tables.live.Keys == work.tables.live.Keys + {work.tables.next}
    ensures !next.marks[|work.marks|].fate.Entered? ==> next.tables.live.Keys == work.tables.live.Keys
  {
    hide StaysAs, AtWork;
    assert |next.tables.live| == |next.tables.live.Keys| && |work.tables.live| == |work.tables.live.Keys|;
  }

  lemma NoEntries(marks: seq<Mark>, from: nat)
    requires from <= |marks|
    ensures EntriesIn(marks, from, from) == 0
  {
  }

  /** An attempt that goes on, in front of the rest of a turn. */
  lemma OneFated(work: Work, next: Work, after: Work, attempt: Attempt, tries: nat, r: Result<(), Failure>)
    requires Recorded(work, next, attempt, Ok(true)) && Fated(work, next, attempt, Ok(true))
    requires work.tables.next !in work.tables.live
    requires next.marks <= after.marks && TurnFated(next, after, tries, r)
    ensures TurnFated(work, after, tries + 1, r)
  {
    hide Recorded, Fated, Grown, NewAtWork, NobodyElse, AllStay, PeersFated, EntriesIn;
    var first, known := |work.marks|, |work.admitted|;
    LiveGrows(work, next, attempt);
    EntersAs(work, next, attempt);
    FirstPeer(work, next, attempt);
    EntriesStep(after.marks, first, first + tries + 1);
    assert after.marks[first] == next.marks[first];
    PeersOn(Room(work.tables), Room(next.tables), after.marks, first, first + tries + 1, r);
    StayTwice(work.tables, next.tables, after.tables);
    if next.marks[first].fate.Entered? {
      AdmittedOn(work.admitted, work.tables.next, after.admitted, EntriesIn(after.marks, first + 1, first + tries + 1));
      NewOn(work, next.tables, after);
    }
  }

  /** The first peer of a turn, before all others. */
  lemma PeersOn(room: int, left: int, marks: seq<Mark>, first: nat, end: nat, r: Result<(), Failure>)
    requires first < end <= |marks| && marks[first].Tried?
    requires PeersFated(left, marks, first + 1, end, r) && left == room - One(Counts(Entries, marks[first]))
    requires if marks[first].outcome.Connected? then
        && (marks[first].fate.TurnedAway? <==> room == 0) && !marks[first].fate.NoEntry?
        && (marks[first].fate.Entered? ==> marks[first].outcome.registers)
      else marks[first].fate.NoEntry?
    ensures PeersFated(room, marks, first, end, r)
  {
    hide EntriesIn;
    NoEntries(marks, first);
    forall j | first <= j < end
      ensures PeerFated(room, marks, first, end, j, r)
    {
      if j > first {
        assert PeerFated(left, marks, first + 1, end, j, r);
        EntriesStep(marks, first, j);
      }
    }
  }

  lemma AdmittedOn(known: seq<Token>, token: Token, admitted: seq<Token>, entries: nat)
    requires Grown(known + [token], admitted, entries)
    ensures Grown(known, admitted, entries + 1)
    ensures admitted[|known|] == token && admitted[|known|..] == [token] + admitted[|known| + 1..]
  {
    assert admitted[..|known| + 1] == known + [token];
    assert admitted[|known|] == admitted[..|known| + 1][|known|];
    assert admitted[..|known|] == admitted[..|known| + 1][..|known|];
  }

  lemma NewOn(work: Work, next: Tables, after: Work)
    requires var token, known := work.tables.next, |work.admitted|;
      && token !in work.tables.live && AtWork(next, token) && next.live.Keys == work.tables.live.Keys + {token}
      && known < |after.admitted| && after.admitted[known] == token
      && after.admitted[known..] == [token] + after.admitted[known + 1..]
      && NewAtWork(next.live.Keys, after.tables, after.admitted, known + 1)
      && NobodyElse(next.live.Keys, after.tables.live.Keys, after.admitted, known + 1)
      && AllStay(next, after.tables)
    ensures NewAtWork(work.tables.live.Keys, after.tables, after.admitted, |work.admitted|)
    ensures NobodyElse(work.tables.live.Keys, after.tables.live.Keys, after.admitted, |work.admitted|)
  {
    assert StaysAs(next, after.tables, work.tables.next);
    StaysTwice(next, next, after.tables, work.tables.next);
    hide AtWork, StaysAs;
  }

  lemma StayTwice(first: Tables, second: Tables, third: Tables)
    requires AllStay(first, second) && AllStay(second, third) && first.live.Keys <= second.live.Keys
    ensures AllStay(first, third)
  {
    hide AtWork;
    forall token | token in first.live.Keys
      ensures StaysAs(first, third, token)
    {
      StaysTwice(first, second, third, token);
    }
  }

  lemma FirstPeer(work: Work, next: Work, attempt: Attempt)
    requires Recorded(work, next, attempt, Ok(true)) && Fated(work, next, attempt, Ok(true))
    ensures var mark := next.marks[|work.marks|];
      mark.Tried? &&
      if mark.outcome.Connected? then
        && (mark.fate.TurnedAway? <==> Room(work.tables) == 0) && !mark.fate.NoEntry?
        && (mark.fate.Entered? ==> mark.outcome.registers)
      else mark.fate.NoEntry?
  {
    hide AtWork, StaysAs;
  }

  lemma EntersAs(work: Work, next: Work, attempt: Attempt)
    requires Recorded(work, next, attempt, Ok(true)) && Fated(work, next, attempt, Ok(true))
    requires work.tables.next !in work.tables.live
    ensures next.marks[|work.marks|].fate.Entered? ==>
      AtWork(next.tables, work.tables.next) && next.admitted == work.admitted + [work.tables.next]
    ensures !next.marks[|work.marks|].fate.Entered? ==>
      next.admitted == work.admitted && next.tables.live == work.tables.live
    ensures AllStay(work.tables, next.tables) && next.tables.maxConnections == work.tables.maxConnections
  {
    hide AtWork, StaysAs;
  }

  lemma LastFated(work: Work, attempt: Attempt)
    requires work.tables.next !in work.tables.live && AcceptStep(work, attempt).1 != Ok(true)
    ensures var (next, more) := AcceptStep(work, attempt);
      TurnFated(work, next, 1, if more.Ok? then Ok(()) else Err(more.error))
  {
    AcceptFates(work, attempt);
    AcceptRecords(work, attempt);
    hide AcceptStep, AtWork, StaysAs;
    var next := AcceptStep(work, attempt).0;
    NoEntries(next.marks, |work.marks|);
    EntriesStep(next.marks, |work.marks|, |work.marks| + 1);
    NoEntries(next.marks, |work.marks| + 1);
  }

  lemma NoneFated(work: Work, after: Work, r: Result<(), Failure>)
    requires after.tables == work.tables && after.admitted == work.admitted && |work.marks| <= |after.marks|
    ensures TurnFated(work, after, 0, r)
  {
    SameStays(work.tables);
    NoEntries(after.marks, |work.marks|);
    hide StaysAs, AtWork, EntriesIn;
  }

  /**
   * Every peer of an accept turn: turned away exactly while the limit is reached, else at work under a token of its
   * own; connections that were live stay as they were.
   */
  lemma {:induction false} AcceptsFate(work: Work, attempts: seq<Attempt>, quota: nat, progressed: bool)
    requires Good(work) && !work.tables.registry.stopping && work.pausedAt == None
    ensures var (after, r, tries) := AcceptsFrom(work, attempts, quota, progressed);
      TurnFated(work, after, tries, r)
    decreases |attempts|
  {
    hide Good, AcceptStep, TurnFated, Fated, QuotaUsed;
    NextFits(work);
    if quota == 0 {
      QuotaFated(work, progressed);
    } else if attempts == [] {
      NoneFated(work, work, Ok(()));
    } else {
      FreshNext(work);
      AcceptGood(work, attempts[0]);
      AcceptFates(work, attempts[0]);
      AcceptRecords(work, attempts[0]);
      var (next, more) := AcceptStep(work, attempts[0]);
      if more == Ok(true) {
        var went := progressed || attempts[0].outcome.Connected?;
        AcceptsFate(next, attempts[1..], quota - 1, went);
        AcceptsRecord(next, attempts[1..], quota - 1, went);
        var (after, r, tries) := AcceptsFrom(next, attempts[1..], quota - 1, went);
        OneFated(work, next, after, attempts[0], tries, r);
      } else {
        LastFated(work, attempts[0]);
      }
    }
  }

  lemma QuotaFated(work: Work, progressed: bool)
    ensures var (next, r) := QuotaUsed(work, progressed); TurnFated(work, next, 0, r)
  {
    hide TurnFated;
    NoneFated(work, QuotaUsed(work, progressed).0, QuotaUsed(work, progressed).1);
  }

  lemma FreshNext(work: Work)
    requires Good(work)
    ensures work.tables.next !in work.tables.live
  {
    AgreeFacts(work.tables);
  }

  /** What becomes of every peer that an accept turn meets. */
  lemma AcceptTurnFates(work: Work, now: nat, attempts: seq<Attempt>)
    requires Good(work) && !work.tables.registry.stopping
    ensures var (after, r, tries) := AcceptTurn(work, now, attempts); TurnFated(work, after, tries, r)
  {
    hide Good, AcceptsFrom;
    if !work.listenerReady || AcceptDelay(work.pausedAt, now) != 0 {
      NoneFated(work, work, Ok(()));
    } else {
      var start := work.(pausedAt := None, clock := now);
      StartGood(work, now);
      AcceptsFate(start, attempts, Quota(work), false);
      var (after, r, tries) := AcceptTurn(work, now, attempts);
      SameTurnFated(start, work, after, tries, r);
    }
  }

  lemma SameTurnFated(start: Work, work: Work, after: Work, tries: nat, r: Result<(), Failure>)
    requires start == work.(pausedAt := start.pausedAt, clock := start.clock) && TurnFated(start, after, tries, r)
    ensures TurnFated(work, after, tries, r)
  {
    hide AtWork, StaysAs, EntriesIn, PeersFated;
  }

  /** A new worker is ready: the first peer that it meets enters at once. */
  lemma FirstPeerEnters(instance: nat, maxConnections: nat, turnSteps: nat, now: nat, attempt: Attempt)
    requires maxConnections > 0 && turnSteps > 0 && attempt.outcome == AcceptOutcome.Connected(true)
    ensures var (after, r, tries) := AcceptTurn(NewWork(instance, maxConnections, turnSteps), now, [attempt]);
      && r == Ok(()) && tries == 1
      && after.admitted == [FIRST_CONNECTION] && AtWork(after.tables, FIRST_CONNECTION)
  {
    hide AcceptStep, AtWork;
    var first := NewWork(instance, maxConnections, turnSteps);
    var work := first.(pausedAt := None, clock := now);
    EntersEmpty(work, attempt);
    var next, quota := AcceptStep(work, attempt).0, Quota(first);
    assert quota > 0 && [attempt][1..] == [];
    assert AcceptsFrom(next, [], quota - 1, true) == (next, Ok(()), 0);
  }

  lemma EntersEmpty(work: Work, attempt: Attempt)
    requires work.tables.live == map[] && work.tables.maxConnections > 0 && work.tables.next != U64_MAX
    requires work.admitted == [] && work.summary.accepted != U64_MAX && attempt.outcome == AcceptOutcome.Connected(true)
    ensures var (next, more) := AcceptStep(work, attempt);
      more == Ok(true) && next.admitted == [work.tables.next] && AtWork(next.tables, work.tables.next)
  {
    AdmittedAtWork(work.tables);
    hide AtWork, Admitted, StaysAs;
    assert [] + [work.tables.next] == [work.tables.next];
  }
}
