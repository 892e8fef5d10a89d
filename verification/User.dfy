/** `User`: a vector of sessions that acts as a map keyed by access token. */
module Users {
  import opened SessionTypes
  import opened UserInstances

  // ---------------------------------------------------------------- lists of sessions

  ghost predicate DistinctTokens(xs: seq<Session>) {
    forall i, j :: 0 <= i < j < |xs| ==> xs[i].token != xs[j].token
  }

  /** The index of the first session with this token; |xs| if there is none. */
  function IndexOf(xs: seq<Session>, token: string): (k: nat)
    ensures k <= |xs|
    ensures k < |xs| ==> xs[k].token == token
    ensures forall i :: 0 <= i < k ==> xs[i].token != token
  {
    if xs == [] || xs[0].token == token then 0 else 1 + IndexOf(xs[1..], token)
  }

  predicate Has(xs: seq<Session>, token: string) {
    IndexOf(xs, token) < |xs|
  }

  function Without(xs: seq<Session>, token: string): seq<Session> {
    var k := IndexOf(xs, token);
    if k == |xs| then xs else xs[..k] + xs[k + 1..]
  }

  /** The list after `LoginNewInstance`. */
  function Replaced(xs: seq<Session>, x: Session): seq<Session> {
    Without(xs, x.token) + [x]
  }

  function SentAll(xs: seq<Session>, e: Event): seq<Session> {
    seq(|xs|, i requires 0 <= i < |xs| => Sent(xs[i], e))
  }

  /** The list after `PostEventToInstance`. */
  function SentOne(xs: seq<Session>, token: string, e: Event): seq<Session> {
    var k := IndexOf(xs, token);
    if k == |xs| then xs else xs[k := Sent(xs[k], e)]
  }

  /** The map that the list stands for. */
  ghost function Table(xs: seq<Session>): map<string, Session> {
    map i | 0 <= i < |xs| && IndexOf(xs, xs[i].token) == i :: xs[i].token := xs[i]
  }

  lemma {:induction false} IndexOfFirst(xs: seq<Session>, token: string, k: nat)
    requires k < |xs| && xs[k].token == token && forall i :: 0 <= i < k ==> xs[i].token != token
    ensures IndexOf(xs, token) == k
  {
    if k > 0 {
      IndexOfFirst(xs[1..], token, k - 1);
    }
  }

  lemma TableHas(xs: seq<Session>, token: string)
    ensures token in Table(xs) <==> Has(xs, token)
    ensures token in Table(xs) ==> Table(xs)[token] == xs[IndexOf(xs, token)]
  {
    var k := IndexOf(xs, token);
    if k < |xs| {
      assert IndexOf(xs, xs[k].token) == k;
    }
  }

  /** What `erase` leaves has the other sessions in their order. */
  function Others(xs: seq<Session>, token: string): seq<Session> {
    if xs == [] then []
    else (if xs[0].token == token then [] else [xs[0]]) + Others(xs[1..], token)
  }

  lemma {:induction false} OthersKeepAll(xs: seq<Session>, token: string)
    requires forall i :: 0 <= i < |xs| ==> xs[i].token != token
    ensures Others(xs, token) == xs
  {
    if xs != [] {
      OthersKeepAll(xs[1..], token);
    }
  }

  lemma {:induction false} WithoutIsOthers(xs: seq<Session>, token: string)
    requires DistinctTokens(xs)
    ensures Without(xs, token) == Others(xs, token)
  {
    if xs != [] {
      if xs[0].token == token {
        OthersKeepAll(xs[1..], token);
      } else {
        WithoutIsOthers(xs[1..], token);
        assert Without(xs, token) == [xs[0]] + Without(xs[1..], token);
      }
    }
  }

  /** Two lists stand for tables that agree where look-ups agree. */
  lemma TablesAgree(xs: seq<Session>, table: map<string, Session>)
    requires forall token :: token in table <==> IndexOf(xs, token) < |xs|
    requires forall token :: token in table ==> table[token] == xs[IndexOf(xs, token)]
    ensures Table(xs) == table
  {
    forall token
      ensures token in Table(xs) <==> token in table
      ensures token in table ==> Table(xs)[token] == table[token]
    {
      TableHas(xs, token);
    }
  }

  /** Erase-first-match then append keeps tokens distinct, is the update of a map, and leaves all other
      sessions as they are and in their order, in front of the new one. */
  lemma ReplacedIsMapUpdate(xs: seq<Session>, x: Session)
    requires DistinctTokens(xs)
    ensures DistinctTokens(Replaced(xs, x))
    ensures Table(Replaced(xs, x)) == Table(xs)[x.token := x]
    ensures Replaced(xs, x) == Others(xs, x.token) + [x]
  {
    WithoutIsOthers(xs, x.token);
    forall token
      ensures var ys, table := Replaced(xs, x), Table(xs)[x.token := x];
              && (token in table <==> IndexOf(ys, token) < |ys|)
              && (token in table ==> table[token] == ys[IndexOf(ys, token)])
    {
      TableHas(xs, token);
      ReplacedFinds(xs, x, token);
    }
    TablesAgree(Replaced(xs, x), Table(xs)[x.token := x]);
    ReplacedDistinct(xs, x);
  }

  lemma WithoutAt(xs: seq<Session>, token: string, i: nat)
    requires i < |Without(xs, token)|
    ensures var at := if i < IndexOf(xs, token) then i else i + 1;
            at < |xs| && Without(xs, token)[i] == xs[at]
    ensures DistinctTokens(xs) ==> Without(xs, token)[i].token != token
  {
    var k := IndexOf(xs, token);
    if k < |xs| {
      assert Without(xs, token) == xs[..k] + xs[k + 1..];
    }
  }

  lemma ReplacedDistinct(xs: seq<Session>, x: Session)
    requires DistinctTokens(xs)
    ensures DistinctTokens(Replaced(xs, x))
  {
    forall i | 0 <= i < |Without(xs, x.token)|
      ensures Without(xs, x.token)[i] == xs[if i < IndexOf(xs, x.token) then i else i + 1]
      ensures Without(xs, x.token)[i].token != x.token
    {
      WithoutAt(xs, x.token, i);
    }
  }

  /** A list that ends in a new session. */
  lemma {:induction false} AppendedFinds(xs: seq<Session>, x: Session, token: string)
    requires IndexOf(xs, x.token) == |xs|
    ensures IndexOf(xs + [x], token) == if token == x.token then |xs| else
              if IndexOf(xs, token) < |xs| then IndexOf(xs, token) else |xs| + 1
  {
    if xs != [] {
      AppendedFinds(xs[1..], x, token);
      assert (xs + [x])[1..] == xs[1..] + [x];
    }
  }

  lemma ReplacedFinds(xs: seq<Session>, x: Session, token: string)
    requires DistinctTokens(xs)
    ensures var ys := Replaced(xs, x);
            var k, m := IndexOf(xs, token), IndexOf(ys, token);
            if token == x.token then m < |ys| && ys[m] == x
            else (m < |ys| <==> k < |xs|) && (k < |xs| ==> ys[m] == xs[k])
  {
    WithoutFinds(xs, x.token, x.token);
    WithoutFinds(xs, x.token, token);
    AppendedFinds(Without(xs, x.token), x, token);
  }

  ghost function SentTable(table: map<string, Session>, e: Event): map<string, Session> {
    map t | t in table :: Sent(table[t], e)
  }

  ghost function SentTo(table: map<string, Session>, token: string, e: Event): map<string, Session> {
    if token in table then table[token := Sent(table[token], e)] else table
  }

  lemma BroadcastFinds(xs: seq<Session>, e: Event, t: string)
    ensures var k := IndexOf(SentAll(xs, e), t);
            && (t in Table(xs) <==> k < |xs|) && |SentAll(xs, e)| == |xs|
            && (t in Table(xs) ==> SentAll(xs, e)[k] == Sent(Table(xs)[t], e))
  {
    TableHas(xs, t);
    SameTokensSameIndex(xs, SentAll(xs, e), t);
  }

  /** A broadcast reaches every session of the map. */
  lemma BroadcastOnTable(xs: seq<Session>, e: Event)
    ensures Table(SentAll(xs, e)) == SentTable(Table(xs), e)
  {
    forall t
      ensures t in Table(xs) <==> IndexOf(SentAll(xs, e), t) < |SentAll(xs, e)|
      ensures t in Table(xs) ==> SentAll(xs, e)[IndexOf(SentAll(xs, e), t)] == Sent(Table(xs)[t], e)
    {
      BroadcastFinds(xs, e, t);
    }
    TablesAgree(SentAll(xs, e), SentTable(Table(xs), e));
  }

  lemma DirectedFinds(xs: seq<Session>, token: string, e: Event, t: string)
    ensures var k := IndexOf(SentOne(xs, token, e), t);
            && (t in Table(xs) <==> k < |xs|) && |SentOne(xs, token, e)| == |xs|
            && (t in Table(xs) ==>
                  SentOne(xs, token, e)[k] == SentTo(Table(xs), token, e)[t])
  {
    TableHas(xs, t);
    SameTokensSameIndex(xs, SentOne(xs, token, e), t);
  }

  /** A directed post reaches the session with the token. */
  lemma DirectedOnTable(xs: seq<Session>, token: string, e: Event)
    ensures Table(SentOne(xs, token, e)) == SentTo(Table(xs), token, e)
  {
    forall t
      ensures t in Table(xs) <==> IndexOf(SentOne(xs, token, e), t) < |SentOne(xs, token, e)|
      ensures t in Table(xs) ==> SentOne(xs, token, e)[IndexOf(SentOne(xs, token, e), t)]
                                 == SentTo(Table(xs), token, e)[t]
    {
      DirectedFinds(xs, token, e, t);
    }
    TablesAgree(SentOne(xs, token, e), SentTo(Table(xs), token, e));
  }

  lemma {:induction false} SameTokensSameIndex(xs: seq<Session>, ys: seq<Session>, token: string)
    requires |xs| == |ys| && forall i :: 0 <= i < |xs| ==> xs[i].token == ys[i].token
    ensures IndexOf(xs, token) == IndexOf(ys, token)
  {
    if xs != [] {
      SameTokensSameIndex(xs[1..], ys[1..], token);
    }
  }

  lemma WithoutDistinct(xs: seq<Session>, token: string)
    requires DistinctTokens(xs)
    ensures DistinctTokens(Without(xs, token))
  {}

  lemma WithoutOnTable(xs: seq<Session>, token: string)
    requires DistinctTokens(xs)
    ensures Table(Without(xs, token)) == Table(xs) - {token}
  {
    var table := Table(xs) - {token};
    forall t
      ensures t in table <==> IndexOf(Without(xs, token), t) < |Without(xs, token)|
      ensures t in table ==> table[t] == Without(xs, token)[IndexOf(Without(xs, token), t)]
    {
      TableHas(xs, t);
      WithoutFinds(xs, token, t);
    }
    TablesAgree(Without(xs, token), table);
  }

  lemma WithoutFinds(xs: seq<Session>, token: string, t: string)
    requires DistinctTokens(xs)
    ensures var ys := Without(xs, token);
            var k, m := IndexOf(xs, t), IndexOf(ys, t);
            if t == token then m == |ys| else (m < |ys| <==> k < |xs|) && (k < |xs| ==> ys[m] == xs[k])
  {
    var gone, k := IndexOf(xs, token), IndexOf(xs, t);
    var ys := Without(xs, token);
    if IndexOf(ys, t) < |ys| {
      WithoutAt(xs, token, IndexOf(ys, t));
    }
    if t != token && k < |xs| {
      IndexOfFirst(ys, t, if k < gone then k else k - 1);
    }
  }

  // ---------------------------------------------------------------- the vector's elements

  /** The objects are distinct and have these values. */
  ghost predicate Hold(xs: seq<UserInstance>, sessions: seq<Session>)
    reads xs
  {
    && |xs| == |sessions|
    && (forall i, j :: 0 <= i < j < |xs| ==> xs[i] != xs[j])
    && (forall i :: 0 <= i < |xs| ==> xs[i].Valid() && xs[i].Value() == sessions[i])
  }

  /** `vector::erase`: the elements behind `k` move down one place by move assignment. */
  method MoveDown(xs: seq<UserInstance>, k: nat, ghost sessions: seq<Session>)
    requires Hold(xs, sessions) && k < |xs|
    modifies xs
    ensures Hold(xs[..|xs| - 1], sessions[..k] + sessions[k + 1..])
  {
    for i := k to |xs| - 1
      invariant forall j :: 0 <= j < k ==> xs[j].Valid() && xs[j].Value() == sessions[j]
      invariant forall j :: k <= j < i ==> xs[j].Valid() && xs[j].Value() == sessions[j + 1]
      invariant forall j :: i < j < |xs| ==> xs[j].Valid() && xs[j].Value() == sessions[j]
    {
      xs[i].MoveFrom(xs[i + 1]);
    }
    MovedDown(xs, k, sessions);
  }

  lemma MovedDown(xs: seq<UserInstance>, k: nat, sessions: seq<Session>)
    requires |xs| == |sessions| && k < |xs| && forall i, j :: 0 <= i < j < |xs| ==> xs[i] != xs[j]
    requires forall j :: 0 <= j < k ==> xs[j].Valid() && xs[j].Value() == sessions[j]
    requires forall j :: k <= j < |xs| - 1 ==> xs[j].Valid() && xs[j].Value() == sessions[j + 1]
    ensures Hold(xs[..|xs| - 1], sessions[..k] + sessions[k + 1..])
  {}

  method SendToAll(xs: seq<UserInstance>, e: Event, ghost sessions: seq<Session>)
    requires Hold(xs, sessions)
    modifies xs
    ensures Hold(xs, SentAll(sessions, e))
  {
    for i := 0 to |xs|
      invariant forall j :: 0 <= j < i ==> xs[j].Valid() && xs[j].Value() == Sent(sessions[j], e)
      invariant forall j :: i <= j < |xs| ==> xs[j].Valid() && xs[j].Value() == sessions[j]
    {
      xs[i].SendEvent(e);
    }
  }

  method SendToOne(xs: seq<UserInstance>, k: nat, e: Event, ghost sessions: seq<Session>)
    requires Hold(xs, sessions) && k < |xs|
    modifies xs[k]
    ensures Hold(xs, sessions[k := Sent(sessions[k], e)])
  {
    xs[k].SendEvent(e);
  }

  lemma SendsKeepTokens(xs: seq<Session>, token: string, e: Event)
    requires DistinctTokens(xs)
    ensures DistinctTokens(SentAll(xs, e)) && DistinctTokens(SentOne(xs, token, e))
  {}

  // ---------------------------------------------------------------- the class

  class User {
    const uuid: string
    var instances: seq<UserInstance>
    var onLogoff: bool
    ghost var sessions: seq<Session>
    ghost var Repr: set<object>

    /** `sessions` is the list of the sessions' values. */
    ghost predicate Valid()
      reads this, Repr
    {
      && this in Repr && (forall i :: 0 <= i < |instances| ==> instances[i] in Repr)
      && Hold(instances, sessions) && DistinctTokens(sessions)
    }

    constructor (uuid: string)
      ensures Valid() && fresh(Repr) && this.uuid == uuid && sessions == [] && !onLogoff
    {
      this.uuid, instances, onLogoff, sessions, Repr := uuid, [], false, [], {this};
    }

    method ConnectToUserLogoff()
      requires Valid()
      modifies this`onLogoff
      ensures Valid() && onLogoff
    {
      onLogoff := true;
    }

    /** `find_if` over the vector. */
    method Find(token: string) returns (k: nat)
      requires Valid()
      ensures k == IndexOf(sessions, token)
    {
      k := 0;
      while k < |instances| && instances[k].accessToken != token
        invariant k <= |instances|
        invariant forall i :: 0 <= i < k ==> sessions[i].token != token
      {
        k := k + 1;
      }
      if k < |instances| {
        IndexOfFirst(sessions, token, k);
      }
    }

    method HasInstance(token: string) returns (found: bool)
      requires Valid()
      ensures found <==> Has(sessions, token)
    {
      var k := Find(token);
      found := k < |instances|;
    }

    method PostEvent(e: Event) returns (any: bool)
      requires Valid()
      modifies this`sessions, instances
      ensures Valid() && sessions == SentAll(old(sessions), e)
      ensures any <==> old(sessions) != []
    {
      SendToAll(instances, e, sessions);
      SendsKeepTokens(sessions, "", e);
      sessions := SentAll(sessions, e);
      any := instances != [];
    }

    method PostEventToInstance(token: string, e: Event) returns (found: bool)
      requires Valid()
      modifies this`sessions, instances
      ensures Valid() && sessions == SentOne(old(sessions), token, e)
      ensures found <==> Has(old(sessions), token)
    {
      var k := Find(token);
      SendsKeepTokens(sessions, token, e);
      found := k < |instances|;
      if found {
        SendToOne(instances, k, e, sessions);
      }
      sessions := SentOne(sessions, token, e);
    }

    /** The session at `k`, the first with its token, leaves the vector. */
    method Erase(k: nat)
      requires Valid() && k < |instances| && k == IndexOf(sessions, sessions[k].token)
      modifies this`instances, this`sessions, instances
      ensures Valid() && sessions == Without(old(sessions), old(sessions[k].token))
    {
      MoveDown(instances, k, sessions);
      WithoutDistinct(sessions, sessions[k].token);
      instances, sessions := instances[..|instances| - 1], Without(sessions, sessions[k].token);
    }

    method LoginNewInstance(stream: Stream, token: string) returns (ok: bool)
      requires Valid()
      modifies this`instances, this`sessions, this`Repr, instances
      ensures Valid() && sessions == Replaced(old(sessions), Attached(stream, token))
      ensures fresh(Repr - old(Repr))
      ensures ok
    {
      ReplacedDistinct(sessions, Attached(stream, token));
      var k := Find(token);
      if k < |instances| {
        Erase(k);
      }
      var instance := new UserInstance(stream, token);
      instance.ConnectToInstanceLogoff();
      instances, sessions := instances + [instance], sessions + [Attached(stream, token)];
      Repr := Repr + {instance};
      ok := true;
    }

    /** The first half of a session's logoff callback; the token is a session's.  Returns whether the user
        is to be logged off. */
    method EraseSession(token: string) returns (empty: bool)
      requires Valid() && Has(sessions, token)
      modifies this`instances, this`sessions, instances
      ensures Valid() && sessions == Without(old(sessions), token)
      ensures empty <==> onLogoff && sessions == []
    {
      var k := Find(token);
      Erase(k);
      empty := instances == [] && onLogoff;
    }
  }
}
