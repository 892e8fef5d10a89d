/** Subscribe publishes a device and then reads the database; login writes the database and then looks for
    a device.  Whoever comes second sees the first, in every interleaving. */
module Rendezvous {
  import opened Runs
  import opened RegistrySteps

  /** A subscription or login that will still look for a device waiting for `appId`. */
  predicate Serves(pc: Pc, appId: AppId) {
    (pc.Querying? || pc.WantsLogin?) && pc.appId == appId
  }

  ghost predicate Served(s: State, appId: AppId) {
    exists t :: t in s.pcs && Serves(s.pcs[t], appId)
  }

  ghost predicate HasOwner(s: State, appId: AppId) {
    exists uuid :: Owns(s, uuid, appId)
  }

  /** A pending device whose app id has an owner is still being served.  An owner recorded under the empty
      string counts as none for the subscribe path, which reads it as "not found". */
  ghost predicate NoneForgotten(s: State) {
    forall appId :: appId in s.devices && HasOwner(s, appId) && !Owns(s, "", appId) ==> Served(s, appId)
  }

  /** Who logs in is recorded, with the app id as token; so is every session's user. */
  ghost predicate TokensBacked(s: State) {
    && (forall uuid, token :: Attached(s, uuid, token) ==> Owns(s, uuid, token))
    && (forall t :: t in s.pcs && s.pcs[t].WantsLogin? ==>
          s.pcs[t].token == s.pcs[t].appId && Owns(s, s.pcs[t].uuid, s.pcs[t].appId))
  }

  predicate LogsOff(pc: Pc, uuid: Uuid) {
    (pc.CheckingEmpty? || pc.DroppingUser?) && pc.uuid == uuid
  }

  /** A registered user has a session, or a logoff of his lies between the erasure of a session and the end
      of its callback; and he has his logoff callback. */
  ghost predicate Registered(s: State) {
    forall uuid :: uuid in s.users ==>
      && s.users[uuid].onLogoff
      && (HasSessions(s, uuid) || exists t :: t in s.pcs && LogsOff(s.pcs[t], uuid))
  }

  ghost predicate StorageOk(s: State) {
    forall t :: s.storage == By(t) <==> t in s.pcs && s.pcs[t].Posting?
  }

  // ---------------------------------------------------------------- single actions

  lemma OwnersGrow(s: State, a: Action, uuid: Uuid, appId: AppId)
    requires Enabled(s, a)
    ensures Owns(s, uuid, appId) ==> Owns(Do(s, a), uuid, appId)
    ensures Owns(Do(s, a), uuid, appId) ==>
              || Owns(s, uuid, appId)
              || (a.Step? && s.pcs[a.t] == Recording(uuid, appId))
  {}

  lemma DevicesMove(s: State, a: Action, appId: AppId)
    requires Enabled(s, a) && appId in Do(s, a).devices
    ensures appId in s.devices || (a.Step? && s.pcs[a.t].Publishing? && s.pcs[a.t].device.appId == appId)
    ensures !(a.Step? && s.pcs[a.t].WantsLogin? && s.pcs[a.t].appId == appId)
  {}

  lemma ActorServes(s: State, a: Action, appId: AppId)
    requires Enabled(s, a) && a.t in s.pcs && Serves(s.pcs[a.t], appId)
    requires HasOwner(s, appId) && !Owns(s, "", appId) && appId in Do(s, a).devices
    ensures Serves(NextPc(s, a), appId)
  {
    DevicesMove(s, a, appId);
    if a.Answer? {
      var uuid :| Owns(s, uuid, appId);
    }
  }

  lemma ServedKept(s: State, a: Action, appId: AppId)
    requires Enabled(s, a) && NoneForgotten(s)
    requires var s' := Do(s, a); appId in s'.devices && HasOwner(s', appId) && !Owns(s', "", appId)
    ensures Served(Do(s, a), appId)
  {
    var s' := Do(s, a);
    assert s'.pcs == s.pcs[a.t := NextPc(s, a)];
    OwnersGrow(s, a, "", appId);
    DevicesMove(s, a, appId);
    var uuid :| Owns(s', uuid, appId);
    OwnersGrow(s, a, uuid, appId);
    if appId in s.devices && Owns(s, uuid, appId) {
      var t :| t in s.pcs && Serves(s.pcs[t], appId);
      if t == a.t {
        ActorServes(s, a, appId);
      }
      assert Serves(s'.pcs[t], appId);
    } else {
      assert Serves(s'.pcs[a.t], appId);
    }
  }

  lemma RendezvousKept(s: State, a: Action)
    requires NoneForgotten(s)
    ensures NoneForgotten(Do(s, a))
  {
    if Enabled(s, a) {
      forall appId | appId in Do(s, a).devices && HasOwner(Do(s, a), appId) && !Owns(Do(s, a), "", appId)
        ensures Served(Do(s, a), appId)
      {
        ServedKept(s, a, appId);
      }
    }
  }

  lemma AttachedMoves(s: State, a: Action, uuid: Uuid, token: Token)
    requires Enabled(s, a) && Attached(Do(s, a), uuid, token)
    ensures || Attached(s, uuid, token)
            || (a.Step? && s.pcs[a.t].WantsLogin? && s.pcs[a.t].uuid == uuid && s.pcs[a.t].token == token)
  {}

  lemma NextLoginBacked(s: State, a: Action)
    requires Enabled(s, a) && NextPc(s, a).WantsLogin?
    ensures NextPc(s, a).token == NextPc(s, a).appId && Owns(Do(s, a), NextPc(s, a).uuid, NextPc(s, a).appId)
  {}

  lemma TokensKept(s: State, a: Action)
    requires TokensBacked(s)
    ensures TokensBacked(Do(s, a))
  {
    if Enabled(s, a) {
      var s' := Do(s, a);
      assert s'.pcs == s.pcs[a.t := NextPc(s, a)];
      forall uuid, token | Attached(s', uuid, token)
        ensures Owns(s', uuid, token)
      {
        AttachedMoves(s, a, uuid, token);
        OwnersGrow(s, a, uuid, token);
      }
      forall t | t in s'.pcs && s'.pcs[t].WantsLogin?
        ensures s'.pcs[t].token == s'.pcs[t].appId && Owns(s', s'.pcs[t].uuid, s'.pcs[t].appId)
      {
        if t == a.t {
          NextLoginBacked(s, a);
        } else {
          OwnersGrow(s, a, s.pcs[t].uuid, s.pcs[t].appId);
        }
      }
    }
  }

  /** Only the erasure of the last session leaves a user without one, and only a logoff's end forgets him. */
  lemma SessionsMove(s: State, a: Action, uuid: Uuid)
    requires Enabled(s, a) && uuid in Do(s, a).users && HasCallback(s, uuid)
    ensures Do(s, a).users[uuid].onLogoff
    ensures HasSessions(Do(s, a), uuid)
            || (uuid in s.users && !HasSessions(s, uuid))
            || LogsOff(NextPc(s, a), uuid)
  {
    if a.Visit? {
      DeliveryKeepsSessions(s, a, uuid);
    } else if a.Step? && s.pcs[a.t].WantsLogin? {
      StepMoves(s, a.t);
      LoginLeavesSession(s, s.pcs[a.t], uuid);
    } else {
      OthersTakeSessions(s, a, uuid);
    }
  }

  lemma OthersTakeSessions(s: State, a: Action, uuid: Uuid)
    requires Enabled(s, a) && !a.Visit? && !(a.Step? && s.pcs[a.t].WantsLogin?)
    ensures uuid in Do(s, a).users ==>
              && uuid in s.users && Do(s, a).users[uuid].onLogoff == s.users[uuid].onLogoff
              && ((a.SessionFails? && a.uuid == uuid) || Do(s, a).users[uuid] == s.users[uuid])
  {
    if !Moving(s, a) {
      OthersMoveNothing(s, a);
    } else if a.Step? {
      StepMoves(s, a.t);
    }
  }

  lemma LoginLeavesSession(s: State, pc: Pc, uuid: Uuid)
    requires pc.WantsLogin?
    ensures var s' := LoginUser(s, pc.uuid, pc.token, pc.appId);
            (uuid in s.users && uuid in s'.users && s'.users[uuid] == s.users[uuid])
            || (uuid !in s.users && uuid !in s'.users)
            || (HasSessions(s', uuid) && s'.users[uuid].onLogoff)
  {
    if pc.uuid == uuid && pc.appId in s.devices {
      assert pc.token in LoginUser(s, pc.uuid, pc.token, pc.appId).users[uuid].sessions;
    }
  }

  lemma DeliveryKeepsSessions(s: State, a: Action, uuid: Uuid)
    requires Enabled(s, a) && a.Visit?
    ensures uuid in Do(s, a).users <==> uuid in s.users
    ensures uuid in s.users ==> Do(s, a).users[uuid].onLogoff == s.users[uuid].onLogoff
    ensures HasSessions(s, uuid) ==> HasSessions(Do(s, a), uuid)
  {
    if HasSessions(s, uuid) {
      var token :| token in s.users[uuid].sessions;
      assert token in Do(s, a).users[uuid].sessions;
    }
  }

  lemma LogoffGoesOn(s: State, a: Action, uuid: Uuid)
    requires Enabled(s, a) && a.t in s.pcs && LogsOff(s.pcs[a.t], uuid) && HasCallback(s, uuid)
    ensures LogsOff(NextPc(s, a), uuid) || HasSessions(s, uuid) || uuid !in Do(s, a).users
  {}

  lemma RegisteredKept(s: State, a: Action)
    requires Registered(s)
    ensures Registered(Do(s, a))
  {
    if Enabled(s, a) {
      var s' := Do(s, a);
      assert s'.pcs == s.pcs[a.t := NextPc(s, a)];
      forall uuid | uuid in s'.users
        ensures s'.users[uuid].onLogoff
        ensures HasSessions(s', uuid) || exists t :: t in s'.pcs && LogsOff(s'.pcs[t], uuid)
      {
        SessionsMove(s, a, uuid);
        if uuid in s.users && !HasSessions(s, uuid) {
          var t :| t in s.pcs && LogsOff(s.pcs[t], uuid);
          if t == a.t {
            LogoffGoesOn(s, a, uuid);
          }
          assert LogsOff(s'.pcs[t], uuid);
        } else if LogsOff(NextPc(s, a), uuid) {
          assert LogsOff(s'.pcs[a.t], uuid);
        }
      }
    }
  }

  lemma StorageMoves(s: State, a: Action)
    requires Enabled(s, a)
    requires a.t in s.pcs && s.pcs[a.t].Posting? <==> s.storage == By(a.t)
    ensures Do(s, a).storage == if NextPc(s, a).Posting? then By(a.t)
                                else if s.storage == By(a.t) then Free else s.storage
    ensures NextPc(s, a).Posting? ==> s.storage == By(a.t) || s.storage.Free?
  {}

  lemma StorageKept(s: State, a: Action)
    requires StorageOk(s)
    ensures StorageOk(Do(s, a))
  {
    if Enabled(s, a) {
      StorageMoves(s, a);
      assert Do(s, a).pcs == s.pcs[a.t := NextPc(s, a)];
    }
  }

  // ---------------------------------------------------------------- every reachable state

  ghost predicate Inv(s: State) {
    NoneForgotten(s) && TokensBacked(s) && Registered(s) && StorageOk(s)
  }

  lemma {:induction false} AlwaysInv(acts: seq<Action>)
    ensures Inv(Reached(acts))
    decreases |acts|
  {
    if acts != [] {
      var n := |acts| - 1;
      AlwaysInv(acts[..n]);
      RendezvousKept(Reached(acts[..n]), acts[n]);
      TokensKept(Reached(acts[..n]), acts[n]);
      RegisteredKept(Reached(acts[..n]), acts[n]);
      StorageKept(Reached(acts[..n]), acts[n]);
    }
  }
}
