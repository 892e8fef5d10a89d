/** Posts take the storage mutex one after the other; what a session receives is the log of posts, filtered
    by audience and by the session's life. */
module FanOut {
  import opened Runs
  import opened RegistrySteps
  import opened Rendezvous

  /** The posts in `from .. to` that are for this session, in log order. */
  ghost function HitsBetween(log: seq<Audience>, uuid: Uuid, token: Token, from: nat, to: nat): seq<nat>
    requires to <= |log|
  {
    if to <= from then []
    else HitsBetween(log, uuid, token, from, to - 1) + (if Hits(log[to - 1], uuid, token) then [to - 1] else [])
  }

  lemma {:induction false} HitsBetweenHolds(log: seq<Audience>, uuid: Uuid, token: Token, from: nat, to: nat, i: nat)
    requires to <= |log|
    ensures i in HitsBetween(log, uuid, token, from, to) <==> from <= i < to && Hits(log[i], uuid, token)
  {
    if to > from {
      HitsBetweenHolds(log, uuid, token, from, to - 1, i);
    }
  }

  lemma {:induction false} HitsBetweenIncreases(log: seq<Audience>, uuid: Uuid, token: Token, from: nat, to: nat,
                                                i: nat, j: nat)
    requires to <= |log| && i < j < |HitsBetween(log, uuid, token, from, to)|
    ensures HitsBetween(log, uuid, token, from, to)[i] < HitsBetween(log, uuid, token, from, to)[j]
  {
    var before := HitsBetween(log, uuid, token, from, to - 1);
    if j < |before| {
      HitsBetweenIncreases(log, uuid, token, from, to - 1, i, j);
    } else {
      assert before[i] in before;
      HitsBetweenHolds(log, uuid, token, from, to - 1, before[i]);
    }
  }

  /** That is: exactly the posts for this session, each once, in increasing order. */
  lemma HitsBetweenMeans(log: seq<Audience>, uuid: Uuid, token: Token, from: nat, to: nat)
    requires to <= |log|
    ensures var hits := HitsBetween(log, uuid, token, from, to);
            && (forall i: nat :: i in hits <==> from <= i < to && Hits(log[i], uuid, token))
            && (forall i, j :: 0 <= i < j < |hits| ==> hits[i] < hits[j])
  {
    var hits := HitsBetween(log, uuid, token, from, to);
    forall i: nat
      ensures i in hits <==> from <= i < to && Hits(log[i], uuid, token)
    {
      HitsBetweenHolds(log, uuid, token, from, to, i);
    }
    forall i, j | 0 <= i < j < |hits|
      ensures hits[i] < hits[j]
    {
      HitsBetweenIncreases(log, uuid, token, from, to, i, j);
    }
  }

  /** Later posts do not change what earlier ones mean. */
  lemma {:induction false} HitsBetweenStays(log: seq<Audience>, more: Audience, uuid: Uuid, token: Token,
                                            from: nat, to: nat)
    requires to <= |log|
    ensures HitsBetween(log + [more], uuid, token, from, to) == HitsBetween(log, uuid, token, from, to)
  {
    if to > from {
      HitsBetweenStays(log, more, uuid, token, from, to - 1);
    }
  }

  /** A post that has yet to reach the user. */
  predicate StillToReach(s: State, uuid: Uuid) {
    s.storage.By? && s.storage.t in s.pcs && s.pcs[s.storage.t].Posting? && ToVisit(s, s.pcs[s.storage.t], uuid)
  }

  /** How much of the log has reached the user's sessions. */
  function Upto(s: State, uuid: Uuid): int {
    if StillToReach(s, uuid) then |s.log| - 1 else |s.log|
  }

  ghost predicate SessionOk(s: State, uuid: Uuid, token: Token, session: Session) {
    && 0 <= session.since <= Upto(s, uuid)
    && session.received == HitsBetween(s.log, uuid, token, session.since, Upto(s, uuid))
  }

  ghost predicate RetiredOk(log: seq<Audience>, r: Retired) {
    exists to: nat :: r.session.since <= to <= |log|
      && r.session.received == HitsBetween(log, r.uuid, r.token, r.session.since, to)
  }

  /** A post in progress is the last of the log. */
  ghost predicate PostOk(s: State) {
    s.storage.By? ==>
      && s.storage.t in s.pcs && s.pcs[s.storage.t].Posting?
      && s.log != [] && s.pcs[s.storage.t].at == |s.log| - 1 && s.pcs[s.storage.t].audience == s.log[|s.log| - 1]
  }

  ghost predicate FanOk(s: State) {
    && PostOk(s)
    && (forall uuid, token :: Attached(s, uuid, token) ==> SessionOk(s, uuid, token, s.users[uuid].sessions[token]))
    && (forall r :: r in s.retired ==> RetiredOk(s.log, r))
  }

  // ---------------------------------------------------------------- steps

  lemma RetiredStays(log: seq<Audience>, more: Audience, r: Retired)
    requires RetiredOk(log, r)
    ensures RetiredOk(log + [more], r)
  {
    var to: nat :| r.session.since <= to <= |log|
      && r.session.received == HitsBetween(log, r.uuid, r.token, r.session.since, to);
    HitsBetweenStays(log, more, r.uuid, r.token, r.session.since, to);
  }

  lemma PostStarts(s: State, t: Tid)
    requires FanOk(s) && StorageOk(s) && Enabled(s, Step(t)) && s.pcs[t].WantsPost?
    ensures FanOk(Do(s, Step(t)))
  {
    var s' := Do(s, Step(t));
    var audience := s.pcs[t].audience;
    assert s'.log == s.log + [audience] && s'.users == s.users && s'.retired == s.retired;
    assert s'.pcs[t] == Posting(audience, |s.log|, {});
    forall uuid, token | Attached(s', uuid, token)
      ensures SessionOk(s', uuid, token, s'.users[uuid].sessions[token])
    {
      assert Attached(s, uuid, token);
      HitsBetweenStays(s.log, audience, uuid, token, s.users[uuid].sessions[token].since, |s.log|);
    }
    forall r | r in s'.retired
      ensures RetiredOk(s'.log, r)
    {
      RetiredStays(s.log, audience, r);
    }
  }

  lemma PostReachesUser(s: State, t: Tid, uuid: Uuid)
    requires FanOk(s) && StorageOk(s) && Enabled(s, Visit(t, uuid))
    ensures FanOk(Do(s, Visit(t, uuid)))
  {
    var s' := Do(s, Visit(t, uuid));
    assert s.storage == By(t);
    assert s'.users.Keys == s.users.Keys && s'.log == s.log && s'.storage == s.storage;
    forall u, token | Attached(s', u, token)
      ensures SessionOk(s', u, token, s'.users[u].sessions[token])
    {
      assert Attached(s, u, token);
    }
  }

  lemma PostEnds(s: State, t: Tid)
    requires FanOk(s) && StorageOk(s) && Enabled(s, Step(t)) && s.pcs[t].Posting?
    ensures FanOk(Do(s, Step(t)))
  {
    var s' := Do(s, Step(t));
    assert s.storage == By(t);
    forall uuid, token | Attached(s', uuid, token)
      ensures SessionOk(s', uuid, token, s'.users[uuid].sessions[token])
    {
      assert Attached(s, uuid, token);
      assert !ToVisit(s, s.pcs[t], uuid);
    }
  }

  lemma RetiresOk(s: State, uuid: Uuid, token: Token)
    requires FanOk(s) && Attached(s, uuid, token)
    ensures RetiredOk(s.log, Retired(uuid, token, s.users[uuid].sessions[token]))
  {
    assert SessionOk(s, uuid, token, s.users[uuid].sessions[token]);
    var to: nat := Upto(s, uuid);
    assert s.users[uuid].sessions[token].received
        == HitsBetween(s.log, uuid, token, s.users[uuid].sessions[token].since, to);
  }

  /** Sessions come and go without a change to the log or to a post in progress. */
  lemma SessionsChange(s: State, s': State)
    requires FanOk(s) && PostOk(s')
    requires s'.log == s.log && s'.storage == s.storage
    requires s.storage.By? ==> s.storage.t in s'.pcs && s'.pcs[s.storage.t] == s.pcs[s.storage.t]
    requires forall uuid, token :: Attached(s', uuid, token) ==>
               || (Attached(s, uuid, token) && s'.users[uuid].sessions[token] == s.users[uuid].sessions[token])
               || (s.storage.Free? && s'.users[uuid].sessions[token].since == |s.log|
                   && s'.users[uuid].sessions[token].received == [])
    requires forall r :: r in s'.retired ==>
               || r in s.retired
               || (Attached(s, r.uuid, r.token) && r.session == s.users[r.uuid].sessions[r.token])
    ensures FanOk(s')
  {
    forall uuid, token | Attached(s', uuid, token)
      ensures SessionOk(s', uuid, token, s'.users[uuid].sessions[token])
    {
      assert Attached(s, uuid, token) ==> SessionOk(s, uuid, token, s.users[uuid].sessions[token]);
    }
    forall r | r in s'.retired
      ensures RetiredOk(s'.log, r)
    {
      if r !in s.retired {
        RetiresOk(s, r.uuid, r.token);
      }
    }
  }

  lemma SessionErased(s: State, a: Action)
    requires FanOk(s) && StorageOk(s) && Enabled(s, a) && a.SessionFails?
    ensures FanOk(Do(s, a))
  {
    SessionsChange(s, Do(s, a));
  }

  lemma DeviceAttached(s: State, t: Tid)
    requires FanOk(s) && StorageOk(s) && Enabled(s, Step(t)) && s.pcs[t].WantsLogin?
    ensures FanOk(Do(s, Step(t)))
  {
    StepMoves(s, t);
    SessionsChange(s, Do(s, Step(t)));
  }

  lemma UserDropped(s: State, t: Tid)
    requires FanOk(s) && StorageOk(s) && Enabled(s, Step(t)) && s.pcs[t].DroppingUser?
    ensures FanOk(Do(s, Step(t)))
  {
    StepMoves(s, t);
    SessionsChange(s, Do(s, Step(t)));
  }

  lemma NothingFannedOut(s: State, a: Action)
    requires FanOk(s) && StorageOk(s) && Enabled(s, a) && !a.Visit? && !a.SessionFails?
    requires a.Step? ==> !s.pcs[a.t].WantsPost? && !s.pcs[a.t].Posting? && !s.pcs[a.t].WantsLogin?
                         && !s.pcs[a.t].DroppingUser?
    ensures FanOk(Do(s, a))
  {
    if a.Step? && s.pcs[a.t].Publishing? {
      StepMoves(s, a.t);
    } else {
      OthersMoveNothing(s, a);
    }
    assert s.storage.By? ==> s.storage.t != a.t;
    assert Do(s, a).log == s.log && Do(s, a).storage == s.storage;
    SessionsChange(s, Do(s, a));
  }

  lemma FanKept(s: State, a: Action)
    requires FanOk(s) && StorageOk(s)
    ensures FanOk(Do(s, a))
  {
    if Enabled(s, a) {
      if a.Visit? {
        PostReachesUser(s, a.t, a.uuid);
      } else if a.SessionFails? {
        SessionErased(s, a);
      } else if a.Step? && s.pcs[a.t].WantsPost? {
        PostStarts(s, a.t);
      } else if a.Step? && s.pcs[a.t].Posting? {
        PostEnds(s, a.t);
      } else if a.Step? && s.pcs[a.t].WantsLogin? {
        DeviceAttached(s, a.t);
      } else if a.Step? && s.pcs[a.t].DroppingUser? {
        UserDropped(s, a.t);
      } else {
        NothingFannedOut(s, a);
      }
    }
  }

  lemma {:induction false} AlwaysFan(acts: seq<Action>)
    ensures FanOk(Reached(acts))
    decreases |acts|
  {
    if acts != [] {
      var n := |acts| - 1;
      AlwaysFan(acts[..n]);
      AlwaysInv(acts[..n]);
      FanKept(Reached(acts[..n]), acts[n]);
    }
  }

  // ---------------------------------------------------------------- what a session receives

  /** Between posts, a session has been sent exactly the posts of its audience since it was attached. */
  lemma LiveSessionsSeeTheLog(acts: seq<Action>, uuid: Uuid, token: Token)
    requires Reached(acts).storage.Free? && Attached(Reached(acts), uuid, token)
    ensures var s := Reached(acts); var session := s.users[uuid].sessions[token];
            && session.since <= |s.log|
            && session.received == HitsBetween(s.log, uuid, token, session.since, |s.log|)
  {
    AlwaysFan(acts);
  }

  /** In plain words: a post reaches a live session exactly if it was made since the session was attached and is for
      everybody, for the session's user, or for the session itself. */
  lemma PostsReachExactly(acts: seq<Action>, uuid: Uuid, token: Token, k: nat)
    requires Reached(acts).storage.Free? && Attached(Reached(acts), uuid, token) && k < |Reached(acts).log|
    ensures var s := Reached(acts); var session := s.users[uuid].sessions[token];
            k in session.received <==>
              && session.since <= k
              && match s.log[k]
                 case Everybody => true
                 case OneUser(u) => u == uuid
                 case OneInstance(u, t) => u == uuid && t == token
  {
    LiveSessionsSeeTheLog(acts, uuid, token);
    var s := Reached(acts);
    HitsBetweenHolds(s.log, uuid, token, s.users[uuid].sessions[token].since, |s.log|, k);
  }

  /** The session's device is attached with this token, since the log was `since` long. */
  predicate Lives(s: State, uuid: Uuid, token: Token, id: nat, since: nat) {
    Attached(s, uuid, token)
    && s.users[uuid].sessions[token].device.id == id && s.users[uuid].sessions[token].since == since
  }

  lemma SessionBegins(s: State, a: Action, uuid: Uuid, token: Token, id: nat, since: nat)
    requires Lives(Do(s, a), uuid, token, id, since)
    ensures || Lives(s, uuid, token, id, since)
            || (Enabled(s, a) && a.Step? && s.pcs[a.t].WantsLogin? && s.pcs[a.t].uuid == uuid && s.pcs[a.t].token == token
                && s.pcs[a.t].appId in s.devices && s.devices[s.pcs[a.t].appId].id == id && since == |s.log|)
  {
    if Enabled(s, a) {
      if !Moving(s, a) {
        OthersMoveNothing(s, a);
      } else if a.Step? {
        StepMoves(s, a.t);
      }
    }
  }

  /** A session has been attached from some action on, without a break; before, its device was waiting, and the log
      was as long as the session says. */
  lemma {:induction false} SessionBegan(acts: seq<Action>, uuid: Uuid, token: Token, id: nat, since: nat)
    returns (j: nat)
    requires Lives(Reached(acts), uuid, token, id, since)
    ensures j < |acts| && since == |Reached(acts[..j]).log|
    ensures exists appId :: appId in Reached(acts[..j]).devices && Reached(acts[..j]).devices[appId].id == id
    ensures forall k :: j < k <= |acts| ==> Lives(Reached(acts[..k]), uuid, token, id, since)
    decreases |acts|
  {
    var n := |acts| - 1;
    SessionBegins(Reached(acts[..n]), acts[n], uuid, token, id, since);
    assert acts[..|acts|] == acts;
    if Lives(Reached(acts[..n]), uuid, token, id, since) {
      j := SessionBegan(acts[..n], uuid, token, id, since);
      assert forall k :: 0 <= k <= n ==> acts[..n][..k] == acts[..k];
      forall k | j < k <= |acts|
        ensures Lives(Reached(acts[..k]), uuid, token, id, since)
      {
        assert k <= n ==> Lives(Reached(acts[..n][..k]), uuid, token, id, since);
      }
    } else {
      j := n;
    }
  }

  lemma RetiresALiveSession(s: State, a: Action, r: Retired)
    requires r in Do(s, a).retired && r !in s.retired
    ensures Attached(s, r.uuid, r.token) && s.users[r.uuid].sessions[r.token] == r.session
  {
    if !Moving(s, a) {
      OthersMoveNothing(s, a);
    } else if a.Step? {
      StepMoves(s, a.t);
    }
  }

  lemma EndIsRecorded(s: State, a: Action, uuid: Uuid, token: Token)
    requires Enabled(s, a) && Attached(s, uuid, token)
    ensures var s' := Do(s, a); var session := s.users[uuid].sessions[token];
            (Attached(s', uuid, token) && s'.users[uuid].sessions[token].device == session.device)
            || Retired(uuid, token, session) in s'.retired
  {
    if !Moving(s, a) {
      OthersMoveNothing(s, a);
    } else if a.Step? {
      StepMoves(s, a.t);
    }
  }

  lemma RetiredStay(s: State, a: Action)
    ensures s.retired <= Do(s, a).retired
  {
    if Enabled(s, a) && !Moving(s, a) {
      OthersMoveNothing(s, a);
    }
  }

  /** A session that an action ends is recorded as retired, with all it has received; whatever is retired stays so. */
  lemma EndedSessionsAreRetired(acts: seq<Action>, a: Action, uuid: Uuid, token: Token)
    requires Attached(Reached(acts), uuid, token)
    ensures var s, s' := Reached(acts), Reached(acts + [a]);
            var session := s.users[uuid].sessions[token];
            && s.retired <= s'.retired
            && ((Attached(s', uuid, token) && s'.users[uuid].sessions[token].device == session.device)
                || Retired(uuid, token, session) in s'.retired)
  {
    Snoc(Do, EMPTY, acts, a);
    RetiredStay(Reached(acts), a);
    if Enabled(Reached(acts), a) {
      EndIsRecorded(Reached(acts), a, uuid, token);
    }
  }

  /** While a post holds the storage mutex nobody else attaches a session, makes or erases a user, publishes a device or
      starts a post; a failing session can leave its user. */
  lemma StorageMutexGuards(acts: seq<Action>, t: Tid, a: Action)
    requires Reached(acts).storage == By(t) && a.t != t
    ensures var s, s' := Reached(acts), Reached(acts + [a]);
            && s'.storage == s.storage && s'.log == s.log && s'.devices == s.devices
            && s'.users.Keys == s.users.Keys
            && forall uuid, token :: Attached(s', uuid, token) ==>
                 Attached(s, uuid, token) && s'.users[uuid].sessions[token] == s.users[uuid].sessions[token]
  {
    var s := Reached(acts);
    Snoc(Do, EMPTY, acts, a);
    AlwaysInv(acts);
    if Enabled(s, a) && !Moving(s, a) {
      OthersMoveNothing(s, a);
    }
  }

  /** A session that is gone has been sent exactly the posts of its audience from its attachment to the action
      `i` that ended it; a post that was on its way and had not reached its user is not among them. */
  lemma {:induction false} RetiredSessionsSawTheirLife(acts: seq<Action>, r: Retired) returns (i: nat)
    requires r in Reached(acts).retired
    ensures i < |acts| && Known(Reached(acts[..i]), r) && r !in Reached(acts[..i]).retired
    ensures r in Reached(acts[..i + 1]).retired
    ensures var s := Reached(acts[..i]);
            && r.session.since <= Upto(s, r.uuid)
            && r.session.received == HitsBetween(s.log, r.uuid, r.token, r.session.since, Upto(s, r.uuid))
    decreases |acts|
  {
    var n := |acts| - 1;
    if r in Reached(acts[..n]).retired {
      i := RetiredSessionsSawTheirLife(acts[..n], r);
      assert acts[..n][..i] == acts[..i] && acts[..n][..i + 1] == acts[..i + 1];
    } else {
      i := n;
      assert acts[..n + 1] == acts;
      RetiresALiveSession(Reached(acts[..n]), acts[n], r);
      AlwaysFan(acts[..n]);
    }
  }

  /** A session the registry has or has had. */
  ghost predicate Known(s: State, r: Retired) {
    r in s.retired || (Attached(s, r.uuid, r.token) && s.users[r.uuid].sessions[r.token] == r.session)
  }

  lemma ReceivedInLogOrder(acts: seq<Action>, r: Retired)
    requires Known(Reached(acts), r)
    ensures forall i, j :: 0 <= i < j < |r.session.received| ==> r.session.received[i] < r.session.received[j]
  {
    AlwaysFan(acts);
    var s := Reached(acts);
    if r !in s.retired {
      RetiresOk(s, r.uuid, r.token);
    }
    var to: nat :| r.session.since <= to <= |s.log|
      && r.session.received == HitsBetween(s.log, r.uuid, r.token, r.session.since, to);
    HitsBetweenMeans(s.log, r.uuid, r.token, r.session.since, to);
  }

  /** Any two sessions were sent the posts they both saw in the same order, and none twice. */
  lemma CommonPostsInOneOrder(acts: seq<Action>, r: Retired, q: Retired, i: nat, j: nat, k: nat, l: nat)
    requires Known(Reached(acts), r) && Known(Reached(acts), q)
    requires i < |r.session.received| && j < |r.session.received|
    requires k < |q.session.received| && l < |q.session.received|
    requires r.session.received[i] == q.session.received[k] && r.session.received[j] == q.session.received[l]
    ensures i < j <==> k < l
  {
    ReceivedInLogOrder(acts, r);
    ReceivedInLogOrder(acts, q);
  }
}
