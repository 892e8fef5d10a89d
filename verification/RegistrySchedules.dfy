/** Schedules that show what the registry does not guarantee. */
module RegistrySchedules {
  import opened Runs
  import opened RegistrySteps
  import opened Rendezvous
  import opened CallData

  /** A subscription that runs alone up to the database's answer. */
  function Asked(t: Tid, device: Device, uuid: Uuid): seq<Action> {
    [Subscribe(t, device), Step(t), Answer(t, uuid)]
  }

  function AfterAsking(s: State, t: Tid, device: Device, uuid: Uuid): State {
    s.(pcs := s.pcs[t := if uuid == "" then Done else WantsLogin(uuid, device.appId, device.appId)],
       devices := s.devices[device.appId := device],
       accepted := s.accepted[device.id := device.appId])
  }

  lemma Subscribes(s: State, t: Tid, device: Device)
    requires t !in s.pcs && device.id !in s.accepted
    ensures Do(s, Subscribe(t, device)) ==
            s.(pcs := s.pcs[t := Publishing(device)], accepted := s.accepted[device.id := device.appId])
  {}

  lemma Publishes(s: State, t: Tid, device: Device)
    requires s.storage.Free? && t in s.pcs && s.pcs[t] == Publishing(device) && device.appId !in s.devices
    ensures Do(s, Step(t)) ==
            s.(pcs := s.pcs[t := Querying(device.appId)], devices := s.devices[device.appId := device])
  {
    StepMoves(s, t);
  }

  lemma GetsAnswer(s: State, t: Tid, appId: AppId, uuid: Uuid)
    requires t in s.pcs && s.pcs[t] == Querying(appId) && Answers(s, appId, uuid)
    ensures Do(s, Answer(t, uuid)) ==
            s.(pcs := s.pcs[t := if uuid == "" then Done else WantsLogin(uuid, appId, appId)])
  {}

  lemma Asks(s: State, t: Tid, device: Device, uuid: Uuid)
    requires s.storage.Free? && t !in s.pcs && device.id !in s.accepted && device.appId !in s.devices
    requires Answers(s, device.appId, uuid)
    ensures After(Do, s, Asked(t, device, uuid)) == AfterAsking(s, t, device, uuid)
  {
    var s1 := s.(pcs := s.pcs[t := Publishing(device)], accepted := s.accepted[device.id := device.appId]);
    var s2 := Do(s1, Step(t));
    var s3 := Do(s2, Answer(t, uuid));
    Subscribes(s, t, device);
    Publishes(s1, t, device);
    GetsAnswer(s2, t, device.appId, uuid);
    assert s3.pcs == AfterAsking(s, t, device, uuid).pcs;
    assert s3 == AfterAsking(s, t, device, uuid);
    Path(Do, [s, s1, s2, s3], Asked(t, device, uuid));
  }

  lemma AskedIsServed(s: State, t: Tid, device: Device, uuid: Uuid)
    requires s.storage.Free? && t !in s.pcs && device.id !in s.accepted && device.appId !in s.devices
    requires Answers(s, device.appId, uuid) && !Served(s, device.appId)
    ensures var s' := After(Do, s, Asked(t, device, uuid));
            device.appId in s'.devices && (Served(s', device.appId) <==> uuid != "")
  {
    Asks(s, t, device, uuid);
    var s' := AfterAsking(s, t, device, uuid);
    if uuid != "" {
      assert Serves(s'.pcs[t], device.appId);
    } else {
      forall u | u in s'.pcs
        ensures !Serves(s'.pcs[u], device.appId)
      {
        assert u != t ==> s'.pcs[u] == s.pcs[u];
      }
    }
  }

  /** When a subscription whose app id has an owner, and that meets no login in progress, is never left waiting
      with nobody to serve it: exactly when the app id is not recorded under the empty string. */
  lemma OwnerIsFoundExactlyWhen(s: State, t: Tid, device: Device)
    requires s.storage.Free? && t !in s.pcs && device.id !in s.accepted && device.appId !in s.devices
    requires HasOwner(s, device.appId) && !Served(s, device.appId)
    ensures (forall uuid :: Answers(s, device.appId, uuid) ==>
               Served(After(Do, s, Asked(t, device, uuid)), device.appId))
            <==> !Owns(s, "", device.appId)
  {
    forall uuid | Answers(s, device.appId, uuid)
      ensures Served(After(Do, s, Asked(t, device, uuid)), device.appId) <==> uuid != ""
    {
      AskedIsServed(s, t, device, uuid);
    }
    var owner :| Owns(s, owner, device.appId);
    if Owns(s, "", device.appId) {
      assert Answers(s, device.appId, "");
    } else {
      assert !Answers(s, device.appId, "");
    }
  }

  /** A run that leaves a device waiting although its app id has an owner who is not the empty string. */
  lemma EmptyOwnerForgets(uuid: Uuid, device: Device) returns (acts: seq<Action>)
    requires uuid != ""
    ensures var s := Reached(acts);
            && device.appId in s.devices && s.devices[device.appId] == device && Owns(s, uuid, device.appId)
            && s.storage.Free? && forall t :: t in s.pcs ==> s.pcs[t].Done?
  {
    var app := device.appId;
    LogsIn(EMPTY, 0, uuid, app);
    var s1 := Recorded(EMPTY, 0, uuid, app);
    LogsIn(s1, 1, "", app);
    var s2 := Recorded(s1, 1, "", app);
    assert Owns(s2, "", app) && Owns(s2, uuid, app);
    Asks(s2, 2, device, "");
    acts := LoggedIn(0, uuid, app) + LoggedIn(1, "", app);
    Concat(Do, EMPTY, LoggedIn(0, uuid, app), LoggedIn(1, "", app));
    Concat(Do, EMPTY, acts, Asked(2, device, ""));
    acts := acts + Asked(2, device, "");
  }

  // ---------------------------------------------------------------- a login that finds no device

  function LoggedIn(t: Tid, uuid: Uuid, app: AppId): seq<Action> {
    [Login(t, uuid, app), Step(t), Step(t)]
  }

  function Recorded(s: State, t: Tid, uuid: Uuid, app: AppId): State {
    s.(pcs := s.pcs[t := Done], owners := s.owners[uuid := AppIds(s, uuid) + {app}])
  }

  lemma LooksInVain(s: State, t: Tid, uuid: Uuid, app: AppId)
    requires s.storage.Free? && t in s.pcs && s.pcs[t] == WantsLogin(uuid, app, app) && app !in s.devices
    ensures Do(s, Step(t)) == s.(pcs := s.pcs[t := Done])
  {
    StepMoves(s, t);
  }

  lemma LogsIn(s: State, t: Tid, uuid: Uuid, app: AppId)
    requires s.storage.Free? && t !in s.pcs && app !in s.devices
    ensures After(Do, s, LoggedIn(t, uuid, app)) == Recorded(s, t, uuid, app)
  {
    var s1 := s.(pcs := s.pcs[t := Recording(uuid, app)]);
    var s2 := s.(pcs := s.pcs[t := WantsLogin(uuid, app, app)],
                 owners := s.owners[uuid := AppIds(s, uuid) + {app}]);
    assert Do(s, Login(t, uuid, app)) == s1;
    assert Do(s1, Step(t)) == s2 by {
      assert s1.pcs[t := WantsLogin(uuid, app, app)] == s2.pcs;
    }
    LooksInVain(s2, t, uuid, app);
    assert s2.pcs[t := Done] == s.pcs[t := Done];
    Path(Do, [s, s1, s2, Recorded(s, t, uuid, app)], LoggedIn(t, uuid, app));
  }

  // ---------------------------------------------------------------- a login between test and erasure

  /** The logoff callback tests for emptiness after it has released the instances mutex and before it takes
      the storage mutex.  A login in between loses its new session with the user: a subscription that
      never failed is destroyed, and its user is no longer registered. */
  lemma DropLosesNewSession(s: State, t: Tid, u: Tid, uuid: Uuid, appId: AppId)
    requires s.storage.Free? && t != u
    requires t in s.pcs && s.pcs[t] == DroppingUser(uuid) && uuid in s.users && !HasSessions(s, uuid)
    requires u in s.pcs && s.pcs[u] == WantsLogin(uuid, appId, appId) && appId in s.devices
    ensures var s' := After(Do, s, [Step(u)] + [Step(t)]);
            && At(s, s.devices[appId].id, Pending(appId))
            && At(After(Do, s, [Step(u)]), s.devices[appId].id, InSession(uuid, appId))
            && At(s', s.devices[appId].id, Destroyed) && uuid !in s'.users
  {
    var s1 := Do(s, Step(u));
    Cons(Do, s, Step(u), [Step(t)]);
    Snoc(Do, s, [], Step(u));
    Snoc(Do, s1, [], Step(t));
    assert [] + [Step(t)] == [Step(t)] && [] + [Step(u)] == [Step(u)];
    StepMoves(s, u);
    assert s1.pcs[t] == DroppingUser(uuid);
    assert s1.users[uuid].sessions[appId].device == s.devices[appId];
    StepMoves(s1, t);
  }

  lemma StepIs(acts: seq<Action>, s: State, a: Action, s': State)
    requires Reached(acts) == s && Do(s, a) == s'
    ensures Reached(acts + [a]) == s'
  {
    Snoc(Do, EMPTY, acts, a);
  }

  /** A login that finds the one device waiting. */
  lemma Attaches(s: State, t: Tid, uuid: Uuid, device: Device)
    requires s.storage.Free? && t in s.pcs && s.pcs[t] == WantsLogin(uuid, device.appId, device.appId)
    requires s.devices == map[device.appId := device] && uuid !in s.users
    ensures Do(s, Step(t)) == s.(
      users := s.users[uuid := User(map[device.appId := Session(device, |s.log|, [])], true)],
      devices := map[], pcs := s.pcs[t := Done])
  {
    StepMoves(s, t);
    assert s.devices - {device.appId} == map[];
  }

  function OwnerOf(uuid: Uuid, app: AppId): State {
    EMPTY.(pcs := map[0 := Done], owners := map[uuid := {app}])
  }

  lemma FirstAsked(uuid: Uuid, device: Device) returns (acts: seq<Action>)
    requires uuid != ""
    ensures Reached(acts) == AfterAsking(OwnerOf(uuid, device.appId), 1, device, uuid)
    ensures PostFree(acts)
  {
    var s := OwnerOf(uuid, device.appId);
    LogsIn(EMPTY, 0, uuid, device.appId);
    assert AppIds(EMPTY, uuid) + {device.appId} == {device.appId};
    assert Recorded(EMPTY, 0, uuid, device.appId).owners == s.owners;
    assert Recorded(EMPTY, 0, uuid, device.appId).pcs == s.pcs;
    assert Owns(s, uuid, device.appId);
    Asks(s, 1, device, uuid);
    Concat(Do, EMPTY, LoggedIn(0, uuid, device.appId), Asked(1, device, uuid));
    acts := LoggedIn(0, uuid, device.appId) + Asked(1, device, uuid);
  }

  /** No post reaches anybody, and no session fails. */
  ghost predicate PostFree(acts: seq<Action>) {
    forall i :: 0 <= i < |acts| ==> !acts[i].Visit? && !acts[i].SessionFails?
  }

  /** One login recorded, one device attached. */
  lemma FirstSession(uuid: Uuid, device: Device) returns (acts: seq<Action>, s: State)
    requires uuid != ""
    ensures Reached(acts) == s && PostFree(acts)
    ensures s == EMPTY.(pcs := map[0 := Done, 1 := Done], owners := map[uuid := {device.appId}],
                        users := map[uuid := User(map[device.appId := Session(device, 0, [])], true)],
                        accepted := map[device.id := device.appId])
  {
    acts := FirstAsked(uuid, device);
    var before := AfterAsking(OwnerOf(uuid, device.appId), 1, device, uuid);
    assert before.devices == map[device.appId := device];
    Attaches(before, 1, uuid, device);
    s := Do(before, Step(1));
    StepIs(acts, before, Step(1), s);
    acts := acts + [Step(1)];
    assert s.pcs == map[0 := Done, 1 := Done];
  }

  /** That session fails, and its callback has found its user empty. */
  lemma FirstFailure(uuid: Uuid, device: Device) returns (acts: seq<Action>, s: State)
    requires uuid != ""
    ensures Reached(acts) == s && s.storage.Free? && s.devices == map[] && Owns(s, uuid, device.appId)
    ensures s.pcs == map[0 := Done, 1 := Done, 2 := DroppingUser(uuid)]
    ensures s.users == map[uuid := User(map[], true)] && s.accepted == map[device.id := device.appId]
  {
    acts, s := FirstSession(uuid, device);
    assert Owns(s, uuid, device.appId);
    OnlySessionFails(s, uuid, device.appId);
    StepIs(acts, s, SessionFails(2, uuid, device.appId), Do(s, SessionFails(2, uuid, device.appId)));
    acts, s := acts + [SessionFails(2, uuid, device.appId)], Do(s, SessionFails(2, uuid, device.appId));
    FindsEmpty(s, 2, uuid);
    StepIs(acts, s, Step(2), Do(s, Step(2)));
    acts, s := acts + [Step(2)], Do(s, Step(2));
  }

  lemma OnlySessionFails(s: State, uuid: Uuid, token: Token)
    requires 2 !in s.pcs && uuid in s.users && s.users.Keys == {uuid} && s.users[uuid].sessions.Keys == {token}
    ensures var s' := Do(s, SessionFails(2, uuid, token));
            && s' == s.(users := s'.users, pcs := s.pcs[2 := CheckingEmpty(uuid)], discarded := s'.discarded,
                        retired := s'.retired)
            && s'.users == map[uuid := User(map[], s.users[uuid].onLogoff)]
  {
    assert s.users[uuid].sessions - {token} == map[];
  }

  lemma FindsEmpty(s: State, t: Tid, uuid: Uuid)
    requires t in s.pcs && s.pcs[t] == CheckingEmpty(uuid) && !HasSessions(s, uuid) && HasCallback(s, uuid)
    ensures Do(s, Step(t)) == s.(pcs := s.pcs[t := DroppingUser(uuid)])
  {}

  /** The race is real: a run from the empty registry that ends in the states the lemma above starts from. */
  lemma RaceIsReachable(uuid: Uuid, first: Device, second: Device) returns (acts: seq<Action>)
    requires uuid != "" && first.id != second.id && first.appId == second.appId
    ensures var s := Reached(acts);
            && s.storage.Free?
            && 2 in s.pcs && s.pcs[2] == DroppingUser(uuid) && uuid in s.users && !HasSessions(s, uuid)
            && 3 in s.pcs && s.pcs[3] == WantsLogin(uuid, first.appId, first.appId)
            && first.appId in s.devices && s.devices[first.appId] == second
  {
    var s: State;
    acts, s := FirstFailure(uuid, first);
    Asks(s, 3, second, uuid);
    Concat(Do, EMPTY, acts, Asked(3, second, uuid));
    acts := acts + Asked(3, second, uuid);
  }
}
