/** Ownership of call data: every accepted subscription is in exactly one place and only moves forward. */
module CallData {
  import opened Runs
  import opened RegistrySteps
  import opened Rendezvous

  datatype Place =
    | InHand(t: Tid)                         // a subscriber is about to publish it
    | Pending(appId: AppId)                  // in m_connected_devices
    | InSession(uuid: Uuid, token: Token)    // owned by a session
    | Destroyed

  ghost predicate At(s: State, id: nat, place: Place) {
    match place
    case InHand(t) => t in s.pcs && s.pcs[t].Publishing? && s.pcs[t].device.id == id
    case Pending(appId) => appId in s.devices && s.devices[appId].id == id
    case InSession(uuid, token) => Attached(s, uuid, token) && s.users[uuid].sessions[token].device.id == id
    case Destroyed => id in s.discarded
  }

  /** How call data moves: from a subscriber's hand to wait or, if another device waits already, to its end;
      from waiting to a session only; from there to its end. */
  predicate Follows(next: Place, place: Place) {
    match place
    case InHand(_) => next.Pending? || next.Destroyed?
    case Pending(_) => next.InSession?
    case InSession(_, _) => next.Destroyed?
    case Destroyed => false
  }

  ghost predicate OnePlace(s: State, id: nat) {
    && (id in s.accepted <==> exists place :: At(s, id, place))
    && (forall p, q :: At(s, id, p) && At(s, id, q) ==> p == q)
  }

  /** A device waits under its own app id, and a session's token is its device's app id. */
  ghost predicate Labelled(s: State) {
    && (forall t :: t in s.pcs && s.pcs[t].Publishing? ==> AcceptedAs(s, s.pcs[t].device, s.pcs[t].device.appId))
    && (forall appId :: appId in s.devices ==> AcceptedAs(s, s.devices[appId], appId))
    && (forall uuid, token :: Attached(s, uuid, token) ==> AcceptedAs(s, s.users[uuid].sessions[token].device, token))
  }

  predicate AcceptedAs(s: State, device: Device, appId: AppId) {
    device.appId == appId && device.id in s.accepted && s.accepted[device.id] == appId
  }

  /** Where a step puts the call data at `place`. */
  function Moved(s: State, a: Action, place: Place): Place
    requires Enabled(s, a)
  {
    match a
    case SessionFails(_, uuid, token) => if place == InSession(uuid, token) then Destroyed else place
    case Step(t) =>
      (match s.pcs[t]
       case Publishing(device) =>
         if place != InHand(t) then place
         else if device.appId in s.devices then Destroyed else Pending(device.appId)
       case WantsLogin(uuid, token, appId) =>
         if appId !in s.devices then place
         else if place == Pending(appId) then InSession(uuid, token)
         else if place == InSession(uuid, token) then Destroyed
         else place
       case DroppingUser(uuid) => if place.InSession? && place.uuid == uuid then Destroyed else place
       case _ => place)
    case _ => place
  }

  lemma MovesForward(s: State, a: Action, place: Place)
    requires Enabled(s, a)
    ensures Follows(Moved(s, a, place), place) || Moved(s, a, place) == place
  {}

  // ---------------------------------------------------------------- a step moves call data as it says

  lemma HandMoves(s: State, a: Action, id: nat, t: Tid)
    requires Enabled(s, a) && At(s, id, InHand(t))
    ensures At(Do(s, a), id, Moved(s, a, InHand(t)))
  {}

  lemma PendingMoves(s: State, a: Action, id: nat, appId: AppId)
    requires Enabled(s, a) && At(s, id, Pending(appId))
    ensures At(Do(s, a), id, Moved(s, a, Pending(appId)))
  {
    if !Moving(s, a) {
      OthersMoveNothing(s, a);
    } else if a.Step? {
      StepMoves(s, a.t);
    }
  }

  lemma SessionMovesInLogin(s: State, id: nat, uuid: Uuid, token: Token, pc: Pc)
    requires At(s, id, InSession(uuid, token)) && pc.WantsLogin?
    ensures var s' := LoginUser(s, pc.uuid, pc.token, pc.appId);
            At(s', id, if pc.appId in s.devices && pc.uuid == uuid && pc.token == token then Destroyed
                       else InSession(uuid, token))
  {}

  lemma SessionMovesInStep(s: State, t: Tid, id: nat, uuid: Uuid, token: Token)
    requires Enabled(s, Step(t)) && At(s, id, InSession(uuid, token))
    ensures At(Effect(s, Step(t)), id, Moved(s, Step(t), InSession(uuid, token)))
  {
    if s.pcs[t].WantsLogin? {
      SessionMovesInLogin(s, id, uuid, token, s.pcs[t]);
    }
  }

  lemma SessionMoves(s: State, a: Action, id: nat, uuid: Uuid, token: Token)
    requires Enabled(s, a) && At(s, id, InSession(uuid, token))
    ensures At(Do(s, a), id, Moved(s, a, InSession(uuid, token)))
  {
    if a.Step? {
      SessionMovesInStep(s, a.t, id, uuid, token);
      assert Do(s, a).users == Effect(s, a).users && Do(s, a).discarded == Effect(s, a).discarded;
    }
  }

  lemma DestroyedStays(s: State, a: Action, id: nat)
    requires Enabled(s, a) && At(s, id, Destroyed)
    ensures At(Do(s, a), id, Moved(s, a, Destroyed))
  {}

  lemma PlaceMoves(s: State, a: Action, id: nat, place: Place)
    requires Enabled(s, a) && At(s, id, place)
    ensures At(Do(s, a), id, Moved(s, a, place))
  {
    match place
    case InHand(t) => HandMoves(s, a, id, t);
    case Pending(appId) => PendingMoves(s, a, id, appId);
    case InSession(uuid, token) => SessionMoves(s, a, id, uuid, token);
    case Destroyed => DestroyedStays(s, a, id);
  }

  // ---------------------------------------------------------------- and in no other way

  lemma HandCame(s: State, a: Action, id: nat, t: Tid)
    requires Enabled(s, a) && At(Do(s, a), id, InHand(t))
    ensures (At(s, id, InHand(t)) && Moved(s, a, InHand(t)) == InHand(t))
            || (a.Subscribe? && a.device.id == id && t == a.t)
  {}

  lemma PendingCame(s: State, a: Action, id: nat, appId: AppId)
    requires Enabled(s, a) && At(Do(s, a), id, Pending(appId))
    ensures (At(s, id, Pending(appId)) && Moved(s, a, Pending(appId)) == Pending(appId))
            || (At(s, id, InHand(a.t)) && Moved(s, a, InHand(a.t)) == Pending(appId))
  {}

  lemma SessionCame(s: State, a: Action, id: nat, uuid: Uuid, token: Token) returns (place: Place)
    requires Enabled(s, a) && At(Do(s, a), id, InSession(uuid, token))
    ensures At(s, id, place) && Moved(s, a, place) == InSession(uuid, token)
  {
    place := InSession(uuid, token);
    if !Moving(s, a) {
      OthersMoveNothing(s, a);
    } else if a.Step? && s.pcs[a.t].WantsLogin? {
      StepMoves(s, a.t);
      if s.pcs[a.t].appId in s.devices && s.pcs[a.t].uuid == uuid && s.pcs[a.t].token == token {
        place := Pending(s.pcs[a.t].appId);
      }
    }
  }

  lemma DestroyedCame(s: State, a: Action, id: nat) returns (place: Place)
    requires Enabled(s, a) && At(Do(s, a), id, Destroyed)
    ensures At(s, id, place) && Moved(s, a, place) == Destroyed
  {
    place := Destroyed;
    if id !in s.discarded {
      if a.SessionFails? {
        place := InSession(a.uuid, a.token);
      } else if s.pcs[a.t].Publishing? {
        place := InHand(a.t);
      } else if s.pcs[a.t].WantsLogin? {
        place := InSession(s.pcs[a.t].uuid, s.pcs[a.t].token);
      } else {
        var uuid := s.pcs[a.t].uuid;
        var token :| token in s.users[uuid].sessions && s.users[uuid].sessions[token].device.id == id;
        place := InSession(uuid, token);
      }
    }
  }

  lemma PlaceCame(s: State, a: Action, id: nat, place: Place) returns (before: Place)
    requires Enabled(s, a) && At(Do(s, a), id, place)
    requires !(a.Subscribe? && a.device.id == id)
    ensures At(s, id, before) && Moved(s, a, before) == place
  {
    match place
    case InHand(t) =>
      HandCame(s, a, id, t);
      before := place;
    case Pending(appId) =>
      PendingCame(s, a, id, appId);
      before := if At(s, id, place) && Moved(s, a, place) == place then place else InHand(a.t);
    case InSession(uuid, token) =>
      before := SessionCame(s, a, id, uuid, token);
    case Destroyed =>
      before := DestroyedCame(s, a, id);
  }

  // ---------------------------------------------------------------- one place each

  lemma PlacesKept(s: State, a: Action, id: nat)
    requires Enabled(s, a) && OnePlace(s, id) && !(a.Subscribe? && a.device.id == id)
    ensures OnePlace(Do(s, a), id)
  {
    var s' := Do(s, a);
    assert id in s'.accepted <==> id in s.accepted;
    if id in s'.accepted {
      var place :| At(s, id, place);
      PlaceMoves(s, a, id, place);
    }
    forall p, q | At(s', id, p) && At(s', id, q)
      ensures p == q
    {
      var p0 := PlaceCame(s, a, id, p);
      var q0 := PlaceCame(s, a, id, q);
    }
    if place :| At(s', id, place) {
      var before := PlaceCame(s, a, id, place);
    }
  }

  lemma NewDevice(s: State, a: Action)
    requires Enabled(s, a) && a.Subscribe? && OnePlace(s, a.device.id)
    ensures OnePlace(Do(s, a), a.device.id)
  {
    var s', id := Do(s, a), a.device.id;
    assert At(s', id, InHand(a.t));
    forall place | At(s', id, place)
      ensures place == InHand(a.t)
    {
      if place.InHand? {
        HandCame(s, a, id, place.t);
      }
      assert place != InHand(a.t) ==> At(s, id, place);
    }
  }

  lemma LabelsKept(s: State, a: Action)
    requires Labelled(s) && TokensBacked(s)
    ensures Labelled(Do(s, a))
  {
    if Enabled(s, a) {
      var s' := Do(s, a);
      forall t | t in s'.pcs && s'.pcs[t].Publishing?
        ensures AcceptedAs(s', s'.pcs[t].device, s'.pcs[t].device.appId)
      {
        HandCame(s, a, s'.pcs[t].device.id, t);
        AcceptedStays(s, a, s'.pcs[t].device);
      }
      forall appId | appId in s'.devices
        ensures AcceptedAs(s', s'.devices[appId], appId)
      {
        WaitingLabel(s, a, appId);
      }
      forall uuid, token | Attached(s', uuid, token)
        ensures AcceptedAs(s', s'.users[uuid].sessions[token].device, token)
      {
        SessionLabel(s, a, uuid, token);
      }
    }
  }

  lemma AcceptedStays(s: State, a: Action, device: Device)
    requires Enabled(s, a)
    ensures AcceptedAs(s, device, device.appId) ==> AcceptedAs(Do(s, a), device, device.appId)
    ensures a == Subscribe(a.t, device) ==> AcceptedAs(Do(s, a), device, device.appId)
  {}

  lemma WaitingDevice(s: State, a: Action, appId: AppId)
    requires Enabled(s, a) && appId in Do(s, a).devices
    ensures var device := Do(s, a).devices[appId];
            || (appId in s.devices && device == s.devices[appId])
            || (a.t in s.pcs && s.pcs[a.t] == Publishing(device) && device.appId == appId)
  {
    if !Moving(s, a) {
      OthersMoveNothing(s, a);
    } else if a.Step? {
      StepMoves(s, a.t);
    }
  }

  lemma WaitingLabel(s: State, a: Action, appId: AppId)
    requires Enabled(s, a) && Labelled(s) && appId in Do(s, a).devices
    ensures AcceptedAs(Do(s, a), Do(s, a).devices[appId], appId)
  {
    WaitingDevice(s, a, appId);
    AcceptedStays(s, a, Do(s, a).devices[appId]);
  }

  lemma SessionDevice(s: State, a: Action, uuid: Uuid, token: Token)
    requires Enabled(s, a) && Attached(Do(s, a), uuid, token)
    ensures var device := Do(s, a).users[uuid].sessions[token].device;
            || (Attached(s, uuid, token) && device == s.users[uuid].sessions[token].device)
            || (a.t in s.pcs && s.pcs[a.t].WantsLogin? && s.pcs[a.t].token == token
                && s.pcs[a.t].appId in s.devices && device == s.devices[s.pcs[a.t].appId])
  {
    if !Moving(s, a) {
      OthersMoveNothing(s, a);
    } else if a.Step? {
      StepMoves(s, a.t);
    }
  }

  lemma SessionLabel(s: State, a: Action, uuid: Uuid, token: Token)
    requires Enabled(s, a) && Labelled(s) && TokensBacked(s) && Attached(Do(s, a), uuid, token)
    ensures AcceptedAs(Do(s, a), Do(s, a).users[uuid].sessions[token].device, token)
  {
    SessionDevice(s, a, uuid, token);
    AcceptedStays(s, a, Do(s, a).users[uuid].sessions[token].device);
  }

  lemma {:induction false} AlwaysOwned(acts: seq<Action>)
    ensures Labelled(Reached(acts)) && forall id :: OnePlace(Reached(acts), id)
    decreases |acts|
  {
    if acts == [] {
      forall id
        ensures OnePlace(EMPTY, id)
      {
        assert forall place :: !At(EMPTY, id, place);
      }
    } else {
      var n := |acts| - 1;
      var s, a := Reached(acts[..n]), acts[n];
      AlwaysOwned(acts[..n]);
      AlwaysInv(acts[..n]);
      LabelsKept(s, a);
      if Enabled(s, a) {
        forall id
          ensures OnePlace(Do(s, a), id)
        {
          if a.Subscribe? && a.device.id == id {
            NewDevice(s, a);
          } else {
            PlacesKept(s, a, id);
          }
        }
      }
    }
  }
  // ---------------------------------------------------------------- how call data ends

  /** The step that destroyed it found it in a session of an owner of its app id, or in the hand of a subscriber
      who found another device waiting for the same app id. */
  ghost predicate EndsFrom(s: State, a: Action, id: nat, place: Place) {
    && Enabled(s, a) && At(s, id, place) && id in s.accepted && At(Do(s, a), id, Destroyed)
    && match place
       case InHand(t) => a == Step(t) && s.accepted[id] in s.devices
       case InSession(uuid, token) => token == s.accepted[id] && Owns(s, uuid, token)
       case _ => false
  }

  lemma EndsHere(s: State, a: Action, id: nat) returns (place: Place)
    requires Labelled(s) && TokensBacked(s)
    requires At(Do(s, a), id, Destroyed) && !At(s, id, Destroyed)
    ensures EndsFrom(s, a, id, place)
  {
    place := DestroyedCame(s, a, id);
    MovesForward(s, a, place);
  }

  /** Nothing is destroyed that was neither refused as a duplicate nor attached. */
  lemma {:induction false} DestroyedWas(acts: seq<Action>, id: nat) returns (i: nat, place: Place)
    requires At(Reached(acts), id, Destroyed)
    ensures i < |acts| && EndsFrom(Reached(acts[..i]), acts[i], id, place)
    decreases |acts|
  {
    var n := |acts| - 1;
    if At(Reached(acts[..n]), id, Destroyed) {
      i, place := DestroyedWas(acts[..n], id);
      assert acts[..n][..i] == acts[..i];
    } else {
      AlwaysOwned(acts[..n]);
      AlwaysInv(acts[..n]);
      place := EndsHere(Reached(acts[..n]), acts[n], id);
      i := n;
    }
  }
}
