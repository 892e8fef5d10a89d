/** What every run of the registry guarantees, and exactly when it does not lose a session. */
module RegistryTheorems {
  import opened Runs
  import opened RegistrySteps
  import opened Rendezvous
  import opened CallData

  // ---------------------------------------------------------------- the rendezvous

  /** A device that waits although its app id has an owner is still being served. */
  lemma RendezvousInProgress(acts: seq<Action>, appId: AppId)
    requires var s := Reached(acts); appId in s.devices && HasOwner(s, appId) && !Owns(s, "", appId)
    ensures exists t :: t in Reached(acts).pcs && Serves(Reached(acts).pcs[t], appId)
  {
    AlwaysInv(acts);
  }

  /** Once all requests have finished, every accepted subscription whose app id has an owner has met one: it is
      in exactly one session, of a recorded owner and under its app id; or it was in one and is destroyed; or
      it was destroyed at once because another subscription was waiting for the same app id.  In the last two
      cases `i` is the action that destroyed it and `last` where it was. */
  lemma RendezvousComplete(acts: seq<Action>, id: nat) returns (place: Place, i: nat, last: Place)
    requires var s := Reached(acts);
             && id in s.accepted && HasOwner(s, s.accepted[id]) && !Owns(s, "", s.accepted[id])
             && forall t :: t in s.pcs ==> s.pcs[t].Done?
    ensures var s := Reached(acts);
            && At(s, id, place) && (forall other :: At(s, id, other) ==> other == place)
            && ((place.InSession? && place.token == s.accepted[id] && Owns(s, place.uuid, place.token))
                || (place.Destroyed? && i < |acts| && EndsFrom(Reached(acts[..i]), acts[i], id, last)))
  {
    AlwaysInv(acts);
    AlwaysOwned(acts);
    var s := Reached(acts);
    assert OnePlace(s, id);
    place :| At(s, id, place);
    i, last := 0, place;
    if place.Destroyed? {
      i, last := DestroyedWas(acts, id);
    }
  }

  // ---------------------------------------------------------------- call data

  /** Every accepted subscription is in exactly one place, and nothing else is anywhere. */
  lemma CallDataInOnePlace(acts: seq<Action>, id: nat)
    ensures var s := Reached(acts);
            && (id in s.accepted <==> exists place :: At(s, id, place))
            && (forall p, q :: At(s, id, p) && At(s, id, q) ==> p == q)
  {
    AlwaysOwned(acts);
    assert OnePlace(Reached(acts), id);
  }

  /** One action moves it forward or not at all; what waits is never destroyed, a session is never re-attached,
      and the destroyed stay so. */
  lemma CallDataMovesForward(acts: seq<Action>, a: Action, id: nat, place: Place, next: Place)
    requires At(Reached(acts), id, place) && At(Reached(acts + [a]), id, next)
    ensures next == place || Follows(next, place)
  {
    var s := Reached(acts);
    Snoc(Do, EMPTY, acts, a);
    AlwaysOwned(acts);
    AlwaysOwned(acts + [a]);
    assert OnePlace(s, id) && OnePlace(Reached(acts + [a]), id);
    if Enabled(s, a) {
      PlaceMoves(s, a, id, place);
      MovesForward(s, a, place);
    }
  }

  // ---------------------------------------------------------------- registered users

  /** A registered user has a session or a logoff of his is still in its callback, and he always has his
      logoff callback. */
  lemma RegisteredUsers(acts: seq<Action>, uuid: Uuid)
    requires uuid in Reached(acts).users
    ensures var s := Reached(acts);
            && s.users[uuid].onLogoff
            && (s.users[uuid].sessions != map[] || exists t :: t in s.pcs && LogsOff(s.pcs[t], uuid))
  {
    AlwaysInv(acts);
  }

  /** Every session ever attached belongs to a recorded owner of its token. */
  lemma SessionsAreBacked(acts: seq<Action>, uuid: Uuid, token: Token)
    requires Attached(Reached(acts), uuid, token)
    ensures Owns(Reached(acts), uuid, token)
  {
    AlwaysInv(acts);
  }

  // ---------------------------------------------------------------- when the end of a logoff loses a session

  /** Thread `t` can take its next step, which erases its user. */
  predicate Drops(s: State, t: Tid) {
    t in s.pcs && s.pcs[t].DroppingUser? && Enabled(s, Step(t))
  }

  /** No erasure of a user that can happen next loses a session. */
  ghost predicate DropsAreHarmless(s: State) {
    forall t, uuid, token :: Drops(s, t) && Attached(s, uuid, token) ==> Attached(Do(s, Step(t)), uuid, token)
  }

  /** A login attaches a session to a user whom a logoff callback has found empty and not erased yet. */
  ghost predicate AttachesInWindow(s: State, a: Action) {
    && a.Step? && Enabled(s, a) && s.pcs[a.t].WantsLogin? && s.pcs[a.t].appId in s.devices
    && exists t :: t in s.pcs && s.pcs[t] == DroppingUser(s.pcs[a.t].uuid)
  }

  ghost predicate NoLoginInWindow(acts: seq<Action>) {
    forall i :: 0 <= i < |acts| ==> !AttachesInWindow(Reached(acts[..i]), acts[i])
  }

  /** Whoever is about to erase a user finds him empty. */
  ghost predicate DroppedAreEmpty(s: State) {
    forall t :: t in s.pcs && s.pcs[t].DroppingUser? ==> !HasSessions(s, s.pcs[t].uuid)
  }

  /** Only a login gives a user without sessions a session. */
  lemma EmptyStays(s: State, a: Action, uuid: Uuid)
    requires Enabled(s, a) && !HasSessions(s, uuid)
    requires !(a.Step? && s.pcs[a.t].WantsLogin? && s.pcs[a.t].appId in s.devices && s.pcs[a.t].uuid == uuid)
    ensures !HasSessions(Do(s, a), uuid)
  {
    if HasSessions(Do(s, a), uuid) {
      var token :| token in Do(s, a).users[uuid].sessions;
      AttachedMoves(s, a, uuid, token);
      StepMoves(s, a.t);
      assert false;
    }
  }

  lemma DroppedStayEmpty(s: State, a: Action)
    requires DroppedAreEmpty(s) && !AttachesInWindow(s, a)
    ensures DroppedAreEmpty(Do(s, a))
  {
    if Enabled(s, a) {
      var s' := Do(s, a);
      assert s'.pcs == s.pcs[a.t := NextPc(s, a)];
      forall t | t in s'.pcs && s'.pcs[t].DroppingUser?
        ensures !HasSessions(s', s'.pcs[t].uuid)
      {
        EmptyStays(s, a, s'.pcs[t].uuid);
      }
    }
  }

  lemma WindowSnoc(acts: seq<Action>)
    requires acts != []
    ensures var n := |acts| - 1;
            NoLoginInWindow(acts) <==>
            NoLoginInWindow(acts[..n]) && !AttachesInWindow(Reached(acts[..n]), acts[n])
  {
    var n := |acts| - 1;
    assert forall i :: 0 <= i < n ==> acts[..n][..i] == acts[..i] && acts[..n][i] == acts[i];
    if NoLoginInWindow(acts[..n]) && !AttachesInWindow(Reached(acts[..n]), acts[n]) {
      forall i | 0 <= i < |acts|
        ensures !AttachesInWindow(Reached(acts[..i]), acts[i])
      {
        assert i < n ==> !AttachesInWindow(Reached(acts[..n][..i]), acts[..n][i]);
      }
    }
  }

  lemma {:induction false} NoLoginNoLoss(acts: seq<Action>)
    requires NoLoginInWindow(acts)
    ensures DroppedAreEmpty(Reached(acts))
    decreases |acts|
  {
    if acts != [] {
      WindowSnoc(acts);
      NoLoginNoLoss(acts[..|acts| - 1]);
      DroppedStayEmpty(Reached(acts[..|acts| - 1]), acts[|acts| - 1]);
    }
  }

  lemma EmptyIsHarmless(s: State)
    requires DroppedAreEmpty(s)
    ensures DropsAreHarmless(s)
  {
    forall t, uuid, token | Drops(s, t) && Attached(s, uuid, token)
      ensures Attached(Do(s, Step(t)), uuid, token)
    {
      StepMoves(s, t);
    }
  }

  lemma LoginInWindowHarms(s: State, a: Action)
    requires AttachesInWindow(s, a)
    ensures !DropsAreHarmless(Do(s, a))
  {
    var s', uuid, token := Do(s, a), s.pcs[a.t].uuid, s.pcs[a.t].token;
    var t :| t in s.pcs && s.pcs[t] == DroppingUser(uuid);
    StepMoves(s, a.t);
    assert Attached(s', uuid, token) && Drops(s', t);
    StepMoves(s', t);
    assert !Attached(Do(s', Step(t)), uuid, token);
  }

  /** When no logoff can take another login's session with it: exactly when no login attaches a session between a
      callback's test for emptiness and its erasure of the user. */
  lemma {:induction false} LogoffIsHarmlessExactlyWhen(acts: seq<Action>)
    ensures Throughout(Do, DropsAreHarmless, EMPTY, acts) <==> NoLoginInWindow(acts)
    decreases |acts|
  {
    if acts == [] {
      assert forall i :: 0 <= i <= |acts| ==> acts[..i] == [];
    } else {
      var n := |acts| - 1;
      LogoffIsHarmlessExactlyWhen(acts[..n]);
      ThroughoutSnoc(Do, DropsAreHarmless, EMPTY, acts);
      WindowSnoc(acts);
      if NoLoginInWindow(acts) {
        NoLoginNoLoss(acts);
        EmptyIsHarmless(Reached(acts));
      } else if NoLoginInWindow(acts[..n]) {
        LoginInWindowHarms(Reached(acts[..n]), acts[n]);
      }
    }
  }

  /** In such runs a session ends by its own failure or by a login that takes over its token. */
  lemma SessionsEndBy(acts: seq<Action>, a: Action, uuid: Uuid, token: Token)
    requires NoLoginInWindow(acts)
    requires Attached(Reached(acts), uuid, token)
    requires var s, s' := Reached(acts), Reached(acts + [a]);
             Attached(s', uuid, token) ==>
               s'.users[uuid].sessions[token].device != s.users[uuid].sessions[token].device
    ensures || (a.SessionFails? && a.uuid == uuid && a.token == token)
            || (a.Step? && a.t in Reached(acts).pcs && Reached(acts).pcs[a.t] == WantsLogin(uuid, token, token))
  {
    var s := Reached(acts);
    Snoc(Do, EMPTY, acts, a);
    NoLoginNoLoss(acts);
    EmptyIsHarmless(s);
    AlwaysInv(acts);
    if !Moving(s, a) {
      OthersMoveNothing(s, a);
    } else if a.Step? {
      StepMoves(s, a.t);
      assert Drops(s, a.t) || !s.pcs[a.t].DroppingUser?;
    }
  }
}
