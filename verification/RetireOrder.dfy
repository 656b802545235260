/** In which order connections are retired: by token, each with its own report, once. */
module RetireOrder {
  import opened Wire
  import opened Records
  import opened Orders
  import opened Driver
  import opened Turns
  import opened TurnLaws
  import Controls
  import Maps

  /** Tokens in the order of their admission. */
  predicate InOrder(tokens: seq<Token>) {
    forall i, j :: 0 <= i < j < |tokens| ==> tokens[i] < tokens[j]
  }

  lemma {:induction false} AscendingInOrder(tokens: set<Token>)
    ensures InOrder(Ascending(tokens))
    decreases |tokens|
  {
    if tokens != {} {
      var least := Least(tokens);
      AscendingInOrder(tokens - {least});
      var rest := Ascending(tokens - {least});
      assert forall token <- rest :: token in tokens && token != least;
    }
  }

  /** The history of closed connections goes on with the first `count` of `tokens`, each as it was live. */
  predicate ClosesAs(before: Work, after: Work, tokens: seq<Token>, result: Controls.CloseResult, count: nat) {
    && count <= |tokens| && |after.closed| == |before.closed| + count
    && after.closed[..|before.closed|] == before.closed
    && forall k :: 0 <= k < count ==>
         && tokens[k] in before.tables.live
         && after.closed[|before.closed| + k] == Closed(tokens[k], before.tables.live[tokens[k]], result)
  }

  /** One retirement and what follows it. */
  lemma ClosesFirst(work: Work, next: Work, last: Work, tokens: seq<Token>, result: Controls.CloseResult, count: nat)
    requires Distinct(tokens) && tokens != [] && tokens[0] in work.tables.live
    requires next == RetireStep(work, tokens[0], result).0
    requires ClosesAs(next, last, tokens[1..], result, count)
    ensures ClosesAs(work, last, tokens, result, count + 1)
  {
    RetireStepShape(work, tokens[0], result);
    hide RetireStep;
    assert last.closed[..|work.closed|] == next.closed[..|work.closed|] == work.closed;
    assert last.closed[|work.closed|] == next.closed[|work.closed|];
    forall k | 0 < k < count + 1
      ensures tokens[k] in work.tables.live
      ensures last.closed[|work.closed| + k] == Closed(tokens[k], work.tables.live[tokens[k]], result)
    {
      assert tokens[k] == tokens[1..][k - 1] && tokens[k] != tokens[0];
    }
  }

  /** A list of connections is retired in its order, and all of it unless a counter fails. */
  lemma {:induction false} EachInOrder(work: Work, tokens: seq<Token>, result: Controls.CloseResult)
    returns (count: nat)
    requires Distinct(tokens) && forall token <- tokens :: token in work.tables.live
    ensures var (next, ok) := RetireEach(work, tokens, result);
      && ClosesAs(work, next, tokens, result, count)
      && (ok ==> count == |tokens|)
    decreases |tokens|
  {
    hide RetireStep, ClosesAs;
    if tokens == [] {
      NoneCloses(work, result);
      count := 0;
    } else {
      var (next, ok) := RetireStep(work, tokens[0], result);
      RetireStepShape(work, tokens[0], result);
      if ok {
        assert forall token <- tokens[1..] :: token in tokens && token != tokens[0];
        var later := EachInOrder(next, tokens[1..], result);
        ClosesFirst(work, next, RetireEach(next, tokens[1..], result).0, tokens, result, later);
        count := later + 1;
      } else {
        OneCloses(next, tokens, result);
        ClosesFirst(work, next, next, tokens, result, 0);
        count := 1;
      }
    }
  }

  lemma NoneCloses(work: Work, result: Controls.CloseResult)
    ensures ClosesAs(work, work, [], result, 0)
  {
  }

  lemma OneCloses(next: Work, tokens: seq<Token>, result: Controls.CloseResult)
    requires tokens != []
    ensures ClosesAs(next, next, tokens[1..], result, 0)
  {
  }

  /** Requested closes retire the connections that were asked to close in the order of their admission. */
  lemma RequestedInOrder(work: Work) returns (tokens: seq<Token>, count: nat)
    ensures InOrder(tokens) && forall token :: token in tokens <==> Asked(work.tables, token)
    ensures var (next, ok) := RetireAsked(work);
      ClosesAs(work, next, tokens, Controls.RetiredByRequest, count) && (ok ==> count == |tokens|)
  {
    hide RetireEach, ClosesAs, Asked, InOrder;
    tokens := AskedTokens(work.tables);
    AscendingInOrder(set token | token in work.tables.live && Asked(work.tables, token));
    AskedLive(work.tables);
    count := EachInOrder(work, tokens, Controls.RetiredByRequest);
  }

  lemma AskedLive(tables: Tables)
    ensures forall token :: Asked(tables, token) ==> token in tables.live
  {
  }

  /** The end of a run retires every connection that is left, in the order of their admission, past failed counters. */
  lemma {:induction false} AllInOrder(work: Work)
    ensures var tokens := Ascending(work.tables.live.Keys);
      && InOrder(tokens) && (forall token :: token in tokens <==> token in work.tables.live)
      && ClosesAs(work, RetireAll(work).0, tokens, Controls.ReceiverStopped, |tokens|)
    decreases |work.tables.live|
  {
    hide RetireStep, ClosesAs, InOrder;
    AscendingInOrder(work.tables.live.Keys);
    if work.tables.live == map[] {
      assert work.tables.live.Keys == {};
      NoneCloses(work, Controls.ReceiverStopped);
    } else {
      var token := Least(work.tables.live.Keys);
      Maps.OneLess(work.tables.live, token);
      var next := RetireStep(work, token, Controls.ReceiverStopped).0;
      RetireStepShape(work, token, Controls.ReceiverStopped);
      AllInOrder(next);
      var tokens := Ascending(work.tables.live.Keys);
      assert tokens[1..] == Ascending(next.tables.live.Keys);
      ClosesFirst(work, next, RetireAll(next).0, tokens, Controls.ReceiverStopped, |tokens| - 1);
    }
  }
}
