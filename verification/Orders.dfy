/** A FIFO whose members are linked through a map, so that any member can be unlinked directly. */
module Orders {
  import opened Wire

  type Token = nat

  datatype Links = Links(previous: Option<Token>, next: Option<Token>)

  predicate Distinct(tokens: seq<Token>) {
    forall i, j :: 0 <= i < j < |tokens| ==> tokens[i] != tokens[j]
  }

  /** Where a token stands; meaningful for members only. */
  function Position(tokens: seq<Token>, token: Token): (position: nat)
    requires token in tokens
    ensures position < |tokens| && tokens[position] == token
  {
    if tokens[0] == token then 0 else 1 + Position(tokens[1..], token)
  }

  function Appended(tokens: seq<Token>, token: Token): seq<Token> {
    if token in tokens then tokens else tokens + [token]
  }

  function Without(tokens: seq<Token>, token: Token): seq<Token> {
    if token in tokens then
      var at := Position(tokens, token);
      tokens[..at] + tokens[at + 1..]
    else tokens
  }

  function First(tokens: seq<Token>): Option<Token> {
    if tokens == [] then None else Some(tokens[0])
  }

  function Last(tokens: seq<Token>): Option<Token> {
    if tokens == [] then None else Some(tokens[|tokens| - 1])
  }

  /** The links a member of a sequence has. */
  function LinksAt(tokens: seq<Token>, i: nat): Links
    requires i < |tokens|
  {
    Links(if i == 0 then None else Some(tokens[i - 1]), if i + 1 == |tokens| then None else Some(tokens[i + 1]))
  }

  /** The map holds exactly the members, each with the links of its place. */
  ghost predicate Linked(links: map<Token, Links>, tokens: seq<Token>) {
    && Distinct(tokens)
    && (forall token :: token in links <==> token in tokens)
    && forall i {:trigger LinksAt(tokens, i)} :: 0 <= i < |tokens| ==> links[tokens[i]] == LinksAt(tokens, i)
  }

  function SetNext(links: map<Token, Links>, at: Token, next: Option<Token>): map<Token, Links>
    requires at in links
  {
    links[at := links[at].(next := next)]
  }

  function SetPrevious(links: map<Token, Links>, at: Token, previous: Option<Token>): map<Token, Links>
    requires at in links
  {
    links[at := links[at].(previous := previous)]
  }

  function Attach(links: map<Token, Links>, last: Option<Token>, token: Token): map<Token, Links>
    requires last.Some? ==> last.value in links
  {
    var added := links[token := Links(last, None)];
    if last.Some? then SetNext(added, last.value, Some(token)) else added
  }

  function Detach(links: map<Token, Links>, token: Token): map<Token, Links>
    requires token in links
    requires links[token].previous.Some? ==> links[token].previous.value in links - {token}
    requires links[token].next.Some? ==> links[token].next.value in links - {token}
  {
    var removed := links[token];
    var rest := links - {token};
    var before := if removed.previous.None? then rest else SetNext(rest, removed.previous.value, removed.next);
    if removed.next.None? then before else SetPrevious(before, removed.next.value, removed.previous)
  }

  lemma AttachLinked(links: map<Token, Links>, tokens: seq<Token>, token: Token)
    requires Linked(links, tokens) && token !in tokens
    ensures Linked(Attach(links, Last(tokens), token), tokens + [token])
  {
    var after, more := Attach(links, Last(tokens), token), tokens + [token];
    forall i | 0 <= i < |more|
      ensures after[more[i]] == LinksAt(more, i)
    {
      if i < |tokens| {
        assert links[tokens[i]] == LinksAt(tokens, i) && more[i] == tokens[i];
      }
    }
  }

  /** The neighbours of a member are other members. */
  lemma Neighbours(links: map<Token, Links>, tokens: seq<Token>, token: Token)
    requires Linked(links, tokens) && token in tokens
    ensures links[token] == LinksAt(tokens, Position(tokens, token))
    ensures links[token].previous.Some? ==> links[token].previous.value in links - {token}
    ensures links[token].next.Some? ==> links[token].next.value in links - {token}
  {
    var at := Position(tokens, token);
    hide Position;
    assert links[tokens[at]] == LinksAt(tokens, at);
    assert at > 0 ==> tokens[at - 1] in tokens && tokens[at - 1] != token;
    assert at + 1 < |tokens| ==> tokens[at + 1] in tokens && tokens[at + 1] != token;
  }

  /** After unlinking, a member that stood at `was` stands at its new place with the links of that place. */
  lemma DetachAt(links: map<Token, Links>, tokens: seq<Token>, token: Token, was: nat, now: nat)
    requires Linked(links, tokens) && token in tokens
    requires was < |tokens| && was != Position(tokens, token)
    requires now == if was < Position(tokens, token) then was else was - 1
    requires links[token].previous.Some? ==> links[token].previous.value in links - {token}
    requires links[token].next.Some? ==> links[token].next.value in links - {token}
    ensures Without(tokens, token)[now] == tokens[was]
    ensures tokens[was] in Detach(links, token)
    ensures Detach(links, token)[tokens[was]] == LinksAt(Without(tokens, token), now)
  {
    var at, other := Position(tokens, token), tokens[was];
    Neighbours(links, tokens, token);
    assert other in tokens && other in links && other != token;
    assert links[other] == LinksAt(tokens, was);
    assert links[token].next == Some(other) <==> was == at + 1;
    assert links[token].previous == Some(other) <==> was + 1 == at;
    assert links[token].previous.Some? && links[token].next.Some? ==> links[token].previous != links[token].next;
    hide Distinct, Linked, LinksAt, Detach;
    NewLinks(tokens, token, was, now);
    DetachEffect(links, token, other);
  }

  lemma DetachEffect(links: map<Token, Links>, token: Token, other: Token)
    requires token in links && other in links && other != token
    requires links[token].previous.Some? ==> links[token].previous.value in links - {token}
    requires links[token].next.Some? ==> links[token].next.value in links - {token}
    requires links[token].previous.Some? && links[token].next.Some? ==> links[token].previous != links[token].next
    ensures other in Detach(links, token)
    ensures Detach(links, token)[other] == Links(
      if links[token].next == Some(other) then links[token].previous else links[other].previous,
      if links[token].previous == Some(other) then links[token].next else links[other].next)
  {
  }

  /** The new place differs from the old one only next to the removed member. */
  lemma NewLinks(tokens: seq<Token>, token: Token, was: nat, now: nat)
    requires Distinct(tokens) && token in tokens
    requires was < |tokens| && was != Position(tokens, token)
    requires now == if was < Position(tokens, token) then was else was - 1
    ensures |Without(tokens, token)| == |tokens| - 1 && Without(tokens, token)[now] == tokens[was]
    ensures var at, own := Position(tokens, token), LinksAt(tokens, was);
      var removed := LinksAt(tokens, at);
      LinksAt(Without(tokens, token), now)
        == Links(if was == at + 1 then removed.previous else own.previous,
                 if was + 1 == at then removed.next else own.next)
  {
    hide Without, Position, Distinct;
    var at := Position(tokens, token);
    WithoutIs(tokens, token);
    RestLinks(tokens, at, was, now);
  }

  /** The neighbours of a member after the member at `at` was cut out. */
  lemma RestLinks(tokens: seq<Token>, at: nat, was: nat, now: nat)
    requires at < |tokens| && was < |tokens| && was != at
    requires now == if was < at then was else was - 1
    ensures var rest, own, removed := tokens[..at] + tokens[at + 1..], LinksAt(tokens, was), LinksAt(tokens, at);
      && |rest| == |tokens| - 1 && rest[now] == tokens[was]
      && LinksAt(rest, now) == Links(if was == at + 1 then removed.previous else own.previous,
                                     if was + 1 == at then removed.next else own.next)
  {
    var rest := tokens[..at] + tokens[at + 1..];
    assert rest[now] == tokens[was];
    if now > 0 {
      assert rest[now - 1] == tokens[if now - 1 < at then now - 1 else now];
    }
    if now + 1 < |rest| {
      assert rest[now + 1] == tokens[if now + 1 < at then now + 1 else now + 2];
    }
  }

  lemma WithoutIs(tokens: seq<Token>, token: Token)
    requires token in tokens
    ensures Without(tokens, token) == tokens[..Position(tokens, token)] + tokens[Position(tokens, token) + 1..]
  {
  }

  lemma WithoutEnds(tokens: seq<Token>, token: Token)
    requires token in tokens
    ensures var own, rest := LinksAt(tokens, Position(tokens, token)), Without(tokens, token);
      && First(rest) == (if own.previous.Some? then First(tokens) else own.next)
      && Last(rest) == (if own.next.Some? then Last(tokens) else own.previous)
  {
    WithoutIs(tokens, token);
    hide Without, Position;
  }

  lemma DetachAll(links: map<Token, Links>, tokens: seq<Token>, token: Token)
    requires Linked(links, tokens) && token in tokens
    requires links[token].previous.Some? ==> links[token].previous.value in links - {token}
    requires links[token].next.Some? ==> links[token].next.value in links - {token}
    ensures var rest := Without(tokens, token);
      forall i {:trigger LinksAt(rest, i)} :: 0 <= i < |rest| ==>
        rest[i] in Detach(links, token) && Detach(links, token)[rest[i]] == LinksAt(rest, i)
  {
    var at, rest := Position(tokens, token), Without(tokens, token);
    assert |rest| == |tokens| - 1;
    hide Without, Position, Detach, LinksAt, Linked;
    forall i | 0 <= i < |rest|
      ensures rest[i] in Detach(links, token) && Detach(links, token)[rest[i]] == LinksAt(rest, i)
    {
      DetachAt(links, tokens, token, if i < at then i else i + 1, i);
    }
  }

  lemma DetachKeys(links: map<Token, Links>, token: Token)
    requires token in links
    requires links[token].previous.Some? ==> links[token].previous.value in links - {token}
    requires links[token].next.Some? ==> links[token].next.value in links - {token}
    ensures forall other :: other in Detach(links, token) <==> other in links && other != token
  {
  }

  /** Unlinking, one neighbour after the other. */
  lemma DetachSteps(links: map<Token, Links>, token: Token)
    requires token in links
    requires links[token].previous.Some? ==> links[token].previous.value in links - {token}
    requires links[token].next.Some? ==> links[token].next.value in links - {token}
    ensures var removed, rest := links[token], links - {token};
      && (removed.previous.None? && removed.next.None? ==> Detach(links, token) == rest)
      && (removed.previous.None? && removed.next.Some? ==>
            Detach(links, token) == SetPrevious(rest, removed.next.value, removed.previous))
      && (removed.previous.Some? ==>
            var before := SetNext(rest, removed.previous.value, removed.next);
            && (removed.next.None? ==> Detach(links, token) == before)
            && (removed.next.Some? ==>
                  && removed.next.value in before
                  && Detach(links, token) == SetPrevious(before, removed.next.value, removed.previous)))
  {
  }

  lemma DetachLinked(links: map<Token, Links>, tokens: seq<Token>, token: Token)
    requires Linked(links, tokens) && token in tokens
    ensures links[token].previous.Some? ==> links[token].previous.value in links - {token}
    ensures links[token].next.Some? ==> links[token].next.value in links - {token}
    ensures Linked(Detach(links, token), Without(tokens, token))
    ensures First(Without(tokens, token)) == if links[token].previous.Some? then First(tokens) else links[token].next
    ensures Last(Without(tokens, token)) == if links[token].next.Some? then Last(tokens) else links[token].previous
  {
    hide Without, Position, Detach, First, Last, LinksAt;
    Neighbours(links, tokens, token);
    DetachAll(links, tokens, token);
    DetachKeys(links, token);
    WithoutMembers(tokens, token);
    WithoutEnds(tokens, token);
    hide Distinct;
  }

  class Order {
    var first: Option<Token>
    var last: Option<Token>
    var links: map<Token, Links>
    /** Link accesses made so far. */
    var accesses: nat
    /** The sequence that the links stand for. */
    ghost var tokens: seq<Token>

    ghost predicate Valid()
      reads this
    {
      Linked(links, tokens) && first == First(tokens) && last == Last(tokens)
    }

    constructor ()
      ensures Valid() && tokens == []
    {
      first, last, links, accesses, tokens := None, None, map[], 0, [];
    }

    /** Appends a token that is not a member yet; a member keeps its place. */
    method PushBack(token: Token)
      requires Valid()
      modifies this
      ensures Valid() && tokens == Appended(old(tokens), token)
      ensures accesses <= old(accesses) + 3
    {
      accesses := accesses + 1;
      if token in links {
        return;
      }
      AttachLinked(links, tokens, token);
      accesses := accesses + 1;
      links := links[token := Links(last, None)];
      if last.Some? {
        accesses := accesses + 1;
        links := SetNext(links, last.value, Some(token));
      } else {
        first := Some(token);
      }
      last := Some(token);
      tokens := tokens + [token];
    }

    /** Unlinks a member wherever it stands; others keep their order. */
    method Remove(token: Token)
      requires Valid()
      modifies this
      ensures Valid() && tokens == Without(old(tokens), token)
      ensures accesses <= old(accesses) + 3
    {
      hide LinksAt, Distinct, Position, Detach, SetNext, SetPrevious, First, Last;
      accesses := accesses + 1;
      if token !in links {
        return;
      }
      assert token in tokens;
      hide Linked, Without;
      DetachLinked(links, tokens, token);
      DetachSteps(links, token);
      ghost var before := links;
      var removed := links[token];
      links := links - {token};
      if removed.previous.Some? {
        accesses := accesses + 1;
        links := SetNext(links, removed.previous.value, removed.next);
      } else {
        first := removed.next;
      }
      if removed.next.Some? {
        accesses := accesses + 1;
        links := SetPrevious(links, removed.next.value, removed.previous);
      } else {
        last := removed.previous;
      }
      assert links == Detach(before, token);
      tokens := Without(tokens, token);
    }

    method PopFront() returns (token: Option<Token>)
      requires Valid()
      modifies this
      ensures Valid() && token == First(old(tokens))
      ensures tokens == if old(tokens) == [] then [] else old(tokens)[1..]
      ensures accesses <= old(accesses) + 3
    {
      token := first;
      if token.Some? {
        Remove(token.value);
      }
    }
  }

  lemma WithoutMembers(tokens: seq<Token>, token: Token)
    requires Distinct(tokens)
    ensures Distinct(Without(tokens, token)) && token !in Without(tokens, token)
    ensures forall other :: other in Without(tokens, token) <==> other in tokens && other != token
  {
    if token in tokens {
      var at := Position(tokens, token);
      var rest := Without(tokens, token);
      forall other | other in tokens && other != token
        ensures other in rest
      {
        var i := Position(tokens, other);
        if i < at { assert rest[i] == other; } else { assert rest[i - 1] == other; }
      }
    }
  }

  lemma AppendedMembers(tokens: seq<Token>, token: Token)
    requires Distinct(tokens)
    ensures Distinct(Appended(tokens, token))
    ensures forall other :: other in Appended(tokens, token) <==> other in tokens || other == token
  {
  }

  lemma PositionUnique(tokens: seq<Token>, i: nat)
    requires Distinct(tokens) && i < |tokens|
    ensures Position(tokens, tokens[i]) == i
  {
  }

  /** Removal never moves a member back, and moves every later one strictly forward. */
  lemma WithoutAdvances(tokens: seq<Token>, removed: Token, token: Token)
    requires Distinct(tokens) && removed in tokens && token in tokens && token != removed
    ensures token in Without(tokens, removed)
    ensures Position(Without(tokens, removed), token)
         == Position(tokens, token) - if Position(tokens, removed) < Position(tokens, token) then 1 else 0
  {
    var at, i := Position(tokens, removed), Position(tokens, token);
    var rest := Without(tokens, removed);
    WithoutMembers(tokens, removed);
    PositionUnique(rest, if at < i then i - 1 else i);
  }

  lemma AppendedKeeps(tokens: seq<Token>, added: Token, token: Token)
    requires Distinct(tokens) && token in tokens
    ensures Distinct(Appended(tokens, added))
    ensures Position(Appended(tokens, added), token) == Position(tokens, token)
  {
    var i := Position(tokens, token);
    PositionUnique(Appended(tokens, added), i);
  }
}
