/** The registry and its sessions together.

    The registry's posts call `SendEvent` on the sessions they reach, and a session whose write has failed is
    erased from the registry; all else interleaves freely, even more than in the program, where a post waits
    for its calls to return.  An event is its post's place in the log. */
module Server {
  import opened Runs
  import opened SessionTypes
  import opened FanOut
  import R = RegistrySteps
  import S = UserInstanceSteps
  import Rendezvous
  import CallData
  import SessionTheorems
  import Delivery
  import Finishing
  import RegistrySchedules

  /** What the registry has done, and what the session on each call data has done. */
  datatype State = State(past: seq<R.Action>, runs: nat -> seq<S.Action>)

  datatype Action = OfRegistry(a: R.Action) | OfSession(id: nat, step: S.Action)

  ghost function Registry(s: State): R.State {
    R.Reached(s.past)
  }

  ghost function SessionOf(s: State, id: nat): S.State {
    S.Reached(s.runs(id))
  }

  /** A post is at this user and for the session on call data `id`. */
  ghost predicate Calls(r: R.State, a: R.Action, id: nat)
    requires R.Enabled(r, a)
  {
    && a.Visit?
    && exists token :: token in r.users[a.uuid].sessions && r.users[a.uuid].sessions[token].device.id == id
                       && R.Hits(r.pcs[a.t].audience, a.uuid, token)
  }

  /** `SendEvent` is called on a session when the one before has returned, and a session is erased when its
      callback asks for it. */
  ghost predicate Possible(s: State, a: R.Action) {
    && R.Enabled(Registry(s), a)
    && (forall id :: Calls(Registry(s), a, id) ==> SessionOf(s, id).sender.Away? && !SessionOf(s, id).erased)
    && (a.SessionFails? ==> SessionOf(s, Registry(s).users[a.uuid].sessions[a.token].device.id).erased)
  }

  ghost function Do(s: State, x: Action): State {
    match x
    case OfSession(id, step) => if step.Enter? then s else s.(runs := Longer(s.runs, iset{id}, step))
    case OfRegistry(a) =>
      if !Possible(s, a) then s
      else if a.Visit? then
        State(s.past + [a], Longer(s.runs, (iset id | Calls(Registry(s), a, id)), S.Enter(Registry(s).pcs[a.t].at)))
      else s.(past := s.past + [a])
  }

  ghost function Longer(runs: nat -> seq<S.Action>, ids: iset<nat>, step: S.Action): nat -> seq<S.Action> {
    (id: nat) => if id in ids then runs(id) + [step] else runs(id)
  }

  ghost const START := State([], (id: nat) => [])

  ghost function Reached(acts: seq<Action>): State {
    After(Do, START, acts)
  }

  // ---------------------------------------------------------------- what a session was called with

  /** The events with which `SendEvent` was called. */
  ghost function Called(acts: seq<S.Action>): seq<Event> {
    if acts == [] then []
    else
      var n := |acts| - 1;
      Called(acts[..n]) + (if Takes(S.Reached(acts[..n]), acts[n]) then [acts[n].e] else [])
  }

  predicate Takes(q: S.State, a: S.Action) {
    a.Enter? && q.sender.Away? && !q.erased
  }

  lemma CalledSnoc(acts: seq<S.Action>, a: S.Action)
    ensures Called(acts + [a]) == Called(acts) + (if Takes(S.Reached(acts), a) then [a.e] else [])
  {
    assert (acts + [a])[..|acts|] == acts;
  }

  /** The event of a call that has not been accepted yet. */
  function Entering(q: S.State): seq<Event> {
    if q.sender.Entered? || q.sender.Loaded? then [q.sender.e] else []
  }

  lemma StepAccepts(q: S.State, a: S.Action)
    requires q.flag == SHUTDOWN ==> q.finished
    requires !S.Do(q, a).finished
    ensures !q.finished
    ensures S.Do(q, a).sent + Entering(S.Do(q, a)) ==
            q.sent + Entering(q) + (if Takes(q, a) then [a.e] else [])
  {
    if a.Handle? && a.h in q.handlers {
      HandlerAccepts(q, a.h);
    }
  }

  lemma EffectAccepts(q: S.State, h: S.Tid)
    requires h in q.handlers
    ensures var q' := S.HandlerEffect(q, h);
            q'.sent == q.sent && q'.sender == q.sender && (q.finished ==> q'.finished)
  {}

  lemma HandlerAccepts(q: S.State, h: S.Tid)
    requires h in q.handlers
    ensures var q' := S.HandlerStep(q, h);
            q'.sent == q.sent && q'.sender == q.sender && (q.finished ==> q'.finished)
  {
    EffectAccepts(q, h);
  }

  /** Until `OnFinished` every call is accepted, but for the one in progress. */
  lemma {:induction false} CallsAreAccepted(acts: seq<S.Action>)
    requires !S.Reached(acts).finished
    ensures Called(acts) == S.Reached(acts).sent + Entering(S.Reached(acts))
    decreases |acts|
  {
    if acts != [] {
      var n := |acts| - 1;
      Delivery.AlwaysInv(acts[..n]);
      StepAccepts(S.Reached(acts[..n]), acts[n]);
      CallsAreAccepted(acts[..n]);
    }
  }

  lemma FinishWritesNothing(q: S.State, a: S.Action)
    requires !q.finished && S.Do(q, a).finished
    ensures S.Do(q, a).written == q.written
  {}

  /** What is written is what was called, at all times. */
  lemma {:induction false} WritesAreCalls(acts: seq<S.Action>)
    ensures S.Faithful(S.Reached(acts).written, Called(acts))
    decreases |acts|
  {
    var q := S.Reached(acts);
    if !q.finished {
      CallsAreAccepted(acts);
      SessionTheorems.NearFifo(acts);
      forall i | 0 <= i < |q.written|
        ensures q.written[i].ticket < |Called(acts)| && q.written[i].event == Called(acts)[q.written[i].ticket]
      {
        assert q.written[i] == S.Line(q)[i];
      }
    } else {
      var n := |acts| - 1;
      WritesAreCalls(acts[..n]);
      Delivery.AlwaysInv(acts[..n]);
      if S.Reached(acts[..n]).finished {
        SessionTheorems.FinishedStepWritesNothing(S.Reached(acts[..n]), acts[n]);
      } else {
        FinishWritesNothing(S.Reached(acts[..n]), acts[n]);
      }
    }
  }

  // ---------------------------------------------------------------- calls and the registry agree

  ghost predicate Agrees(s: State) {
    && (forall uuid, token :: R.Attached(Registry(s), uuid, token) ==>
          var session := Registry(s).users[uuid].sessions[token];
          Called(s.runs(session.device.id)) == session.received)
    && (forall id :: Called(s.runs(id)) != [] ==> HasBeenSession(Registry(s), id))
  }

  ghost predicate HasBeenSession(r: R.State, id: nat) {
    exists place :: CallData.At(r, id, place) && (place.InSession? || place.Destroyed?)
  }

  lemma BeenStays(r: R.State, a: R.Action, id: nat)
    requires R.Enabled(r, a) && HasBeenSession(r, id)
    ensures HasBeenSession(R.Do(r, a), id)
  {
    var place :| CallData.At(r, id, place) && (place.InSession? || place.Destroyed?);
    CallData.PlaceMoves(r, a, id, place);
    CallData.MovesForward(r, a, place);
  }

  lemma StepCallsNobody(s: State, id: nat, step: S.Action, k: nat)
    ensures Called(Do(s, OfSession(id, step)).runs(k)) == Called(s.runs(k))
    ensures Do(s, OfSession(id, step)).past == s.past
  {
    if !step.Enter? {
      CalledSnoc(s.runs(id), step);
    }
  }

  lemma SessionKeeps(s: State, id: nat, step: S.Action)
    requires Agrees(s)
    ensures Agrees(Do(s, OfSession(id, step)))
  {
    var s' := Do(s, OfSession(id, step));
    StepCallsNobody(s, id, step, id);
    forall k
      ensures Called(s'.runs(k)) == Called(s.runs(k))
    {
      StepCallsNobody(s, id, step, k);
    }
    SameCallsAgree(s, s');
  }

  lemma SameCallsAgree(s: State, s': State)
    requires Agrees(s) && s'.past == s.past && forall k :: Called(s'.runs(k)) == Called(s.runs(k))
    ensures Agrees(s')
  {
    forall uuid, token | R.Attached(Registry(s'), uuid, token)
      ensures var session := Registry(s').users[uuid].sessions[token];
              Called(s'.runs(session.device.id)) == session.received
    {
      assert R.Attached(Registry(s), uuid, token);
    }
  }

  /** Without a visit a session keeps what it received, or is new. */
  lemma KeptOrNew(r: R.State, a: R.Action, uuid: R.Uuid, token: R.Token)
    requires R.Enabled(r, a) && !a.Visit? && R.Attached(R.Do(r, a), uuid, token)
    ensures var session := R.Do(r, a).users[uuid].sessions[token];
            || (R.Attached(r, uuid, token) && r.users[uuid].sessions[token] == session)
            || (session.received == []
                && exists appId :: CallData.At(r, session.device.id, CallData.Pending(appId)))
  {
    if !R.Moving(r, a) {
      R.OthersMoveNothing(r, a);
    } else if a.Step? {
      R.StepMoves(r, a.t);
      if r.pcs[a.t].WantsLogin? && r.pcs[a.t].appId in r.devices {
        assert CallData.At(r, r.devices[r.pcs[a.t].appId].id, CallData.Pending(r.pcs[a.t].appId));
      }
    }
  }

  lemma RegistryKeeps(s: State, a: R.Action)
    requires Agrees(s) && Possible(s, a) && !a.Visit?
    requires forall id :: CallData.OnePlace(Registry(s), id)
    ensures Agrees(Do(s, OfRegistry(a)))
  {
    var r, s' := Registry(s), Do(s, OfRegistry(a));
    Snoc(R.Do, R.EMPTY, s.past, a);
    forall uuid, token | R.Attached(Registry(s'), uuid, token)
      ensures var session := Registry(s').users[uuid].sessions[token];
              Called(s'.runs(session.device.id)) == session.received
    {
      KeptOrNew(r, a, uuid, token);
      assert CallData.OnePlace(r, Registry(s').users[uuid].sessions[token].device.id);
    }
    forall id | Called(s'.runs(id)) != []
      ensures HasBeenSession(Registry(s'), id)
    {
      BeenStays(r, a, id);
    }
  }

  /** A visit sends to the sessions of the user that the post is for. */
  lemma VisitSends(s: State, a: R.Action, uuid: R.Uuid, token: R.Token)
    requires Possible(s, a) && a.Visit? && R.Attached(R.Do(Registry(s), a), uuid, token)
    requires forall id :: CallData.OnePlace(Registry(s), id)
    ensures var r := Registry(s);
            && R.Attached(r, uuid, token)
            && var session, session' := r.users[uuid].sessions[token], R.Do(r, a).users[uuid].sessions[token];
               && session'.device == session.device
               && session'.received == session.received + if Calls(r, a, session.device.id) then [r.pcs[a.t].at] else []
  {
    var r := Registry(s);
    var id := r.users[uuid].sessions[token].device.id;
    assert CallData.OnePlace(r, id) && CallData.At(r, id, CallData.InSession(uuid, token));
    if Calls(r, a, id) {
      var k :| k in r.users[a.uuid].sessions && r.users[a.uuid].sessions[k].device.id == id
               && R.Hits(r.pcs[a.t].audience, a.uuid, k);
      assert CallData.At(r, id, CallData.InSession(a.uuid, k));
    }
  }

  lemma VisitCalls(s: State, a: R.Action, id: nat)
    requires Possible(s, a) && a.Visit?
    ensures Called(Do(s, OfRegistry(a)).runs(id)) ==
            Called(s.runs(id)) + if Calls(Registry(s), a, id) then [Registry(s).pcs[a.t].at] else []
  {
    CalledSnoc(s.runs(id), S.Enter(Registry(s).pcs[a.t].at));
  }

  lemma VisitKeeps(s: State, a: R.Action)
    requires Agrees(s) && Possible(s, a) && a.Visit?
    requires forall id :: CallData.OnePlace(Registry(s), id)
    ensures Agrees(Do(s, OfRegistry(a)))
  {
    var r, s' := Registry(s), Do(s, OfRegistry(a));
    Snoc(R.Do, R.EMPTY, s.past, a);
    forall uuid, token | R.Attached(Registry(s'), uuid, token)
      ensures var session := Registry(s').users[uuid].sessions[token];
              Called(s'.runs(session.device.id)) == session.received
    {
      VisitSends(s, a, uuid, token);
      VisitCalls(s, a, r.users[uuid].sessions[token].device.id);
    }
    forall id | Called(s'.runs(id)) != []
      ensures HasBeenSession(Registry(s'), id)
    {
      VisitCalls(s, a, id);
      if Calls(r, a, id) {
        var k :| k in r.users[a.uuid].sessions && r.users[a.uuid].sessions[k].device.id == id;
        assert CallData.At(r, id, CallData.InSession(a.uuid, k));
      }
      BeenStays(r, a, id);
    }
  }

  lemma {:induction false} AlwaysAgrees(acts: seq<Action>)
    ensures Agrees(Reached(acts))
    decreases |acts|
  {
    if acts != [] {
      var s, x := Reached(acts[..|acts| - 1]), acts[|acts| - 1];
      AlwaysAgrees(acts[..|acts| - 1]);
      CallData.AlwaysOwned(s.past);
      match x
      case OfSession(id, step) =>
        SessionKeeps(s, id, step);
      case OfRegistry(a) =>
        if Possible(s, a) {
          if a.Visit? {
            VisitKeeps(s, a);
          } else {
            RegistryKeeps(s, a);
          }
        }
    }
  }

  // ---------------------------------------------------------------- the stream

  /** What a live session's stream has been given is the log of posts since its attachment, filtered by audience, up
      to disjoint swaps of neighbours; until a write fails, what is given and what is pending are all of it,
      but for one call in progress; and if no IDLE was stored between an exchange and its push, what is given
      is the filtered log itself from its beginning. */
  lemma StreamIsTheLog(acts: seq<Action>, uuid: R.Uuid, token: R.Token)
    requires var r := Registry(Reached(acts)); r.storage.Free? && R.Attached(r, uuid, token)
    ensures var s := Reached(acts);
            var session := Registry(s).users[uuid].sessions[token];
            var q := SessionOf(s, session.device.id);
            var log := Registry(s).log;
            var hits := HitsBetween(log, uuid, token, session.since, |log|);
            && q.written <= S.Line(q)
            && (forall i :: 0 <= i < |S.Line(q)| ==> SessionTheorems.Paired(S.Line(q), i))
            && S.Faithful(q.written, hits)
            && (!q.finished ==> S.Faithful(S.Line(q), hits) && |S.Line(q)| + |Entering(q)| == |hits|)
            && (!q.finished && q.strands == 0 ==> S.EventsOf(q.written) <= hits)
  {
    AlwaysAgrees(acts);
    var s := Reached(acts);
    LiveSessionsSeeTheLog(s.past, uuid, token);
    var run := s.runs(Registry(s).users[uuid].sessions[token].device.id);
    WritesAreCalls(run);
    SessionTheorems.NearFifo(run);
    if !S.Reached(run).finished {
      CallsAreAccepted(run);
      SessionTheorems.StrandingBound(run);
    }
  }
  /** The registry may erase a live session exactly when its `OnFinished` has run to the end. */
  lemma SessionsFailExactlyWhen(acts: seq<Action>, t: R.Tid, uuid: R.Uuid, token: R.Token)
    requires R.Attached(Registry(Reached(acts)), uuid, token) && t !in Registry(Reached(acts)).pcs
    ensures var s := Reached(acts);
            var q := SessionOf(s, Registry(s).users[uuid].sessions[token].device.id);
            Possible(s, R.SessionFails(t, uuid, token)) <==> q.finished && !Finishing.SomeoneCloses(q)
  {
    var s := Reached(acts);
    Finishing.ErasedExactlyAfterCallback(s.runs(Registry(s).users[uuid].sessions[token].device.id));
  }
  // ---------------------------------------------------------------- the composition runs

  /** A run of the registry alone, up to its first post or failure, is one of the server's. */
  lemma {:induction false} RegistryAlone(past: seq<R.Action>) returns (acts: seq<Action>)
    requires forall i :: 0 <= i < |past| ==> !past[i].Visit? && !past[i].SessionFails?
    ensures Registry(Reached(acts)) == R.Reached(past) && Reached(acts).runs == START.runs
    decreases |past|
  {
    acts := [];
    if past != [] {
      var n := |past| - 1;
      acts := RegistryAlone(past[..n]);
      var s := Reached(acts);
      Snoc(Do, START, acts, OfRegistry(past[n]));
      Snoc(R.Do, R.EMPTY, s.past, past[n]);
      acts := acts + [OfRegistry(past[n])];
    }
  }

  lemma RegistryStep(acts: seq<Action>, a: R.Action) returns (next: seq<Action>)
    requires Possible(Reached(acts), a) && !a.Visit?
    ensures Registry(Reached(next)) == R.Do(Registry(Reached(acts)), a) && Reached(next).runs == Reached(acts).runs
  {
    next := acts + [OfRegistry(a)];
    Snoc(Do, START, acts, OfRegistry(a));
    Snoc(R.Do, R.EMPTY, Reached(acts).past, a);
  }

  /** A user logs in, his device subscribes, and a post to everybody is under way. */
  lemma PostUnderWay(uuid: R.Uuid, device: R.Device) returns (acts: seq<Action>)
    requires uuid != ""
    ensures FirstPostIsAt(Reached(acts), uuid, device)
  {
    var past, r := RegistrySchedules.FirstSession(uuid, device);
    acts := RegistryAlone(past);
    acts := RegistryStep(acts, R.Post(2, R.Everybody));
    acts := RegistryStep(acts, R.Step(2));
  }

  lemma SessionSteps(acts: seq<Action>, id: nat) returns (next: seq<Action>)
    ensures Reached(next).past == Reached(acts).past
    ensures Reached(next).runs(id) == Reached(acts).runs(id) + [S.Send, S.Send, S.Send]
  {
    next := acts + [OfSession(id, S.Send)] + [OfSession(id, S.Send)] + [OfSession(id, S.Send)];
    Snoc(Do, START, acts, OfSession(id, S.Send));
    Snoc(Do, START, acts + [OfSession(id, S.Send)], OfSession(id, S.Send));
    Snoc(Do, START, acts + [OfSession(id, S.Send)] + [OfSession(id, S.Send)], OfSession(id, S.Send));
  }

  ghost predicate FirstPostIsAt(s: State, uuid: R.Uuid, device: R.Device) {
    && Registry(s).users == map[uuid := R.User(map[device.appId := R.Session(device, 0, [])], true)]
    && 2 in Registry(s).pcs && Registry(s).pcs[2] == R.Posting(R.Everybody, 0, {})
    && s.runs == START.runs
  }

  lemma VisitIsPossible(s: State, uuid: R.Uuid, device: R.Device)
    requires FirstPostIsAt(s, uuid, device)
    ensures Possible(s, R.Visit(2, uuid)) && Calls(Registry(s), R.Visit(2, uuid), device.id)
  {
    assert R.ToVisit(Registry(s), Registry(s).pcs[2], uuid);
    assert device.appId in Registry(s).users[uuid].sessions;
    assert forall id :: s.runs(id) == [];
  }

  lemma VisitDelivers(r: R.State, uuid: R.Uuid, device: R.Device)
    requires r.users == map[uuid := R.User(map[device.appId := R.Session(device, 0, [])], true)]
    requires 2 in r.pcs && r.pcs[2] == R.Posting(R.Everybody, 0, {})
    ensures R.Attached(R.Do(r, R.Visit(2, uuid)), uuid, device.appId)
    ensures R.Do(r, R.Visit(2, uuid)).users[uuid].sessions[device.appId] == R.Session(device, 0, [0])
  {
    assert R.ToVisit(r, r.pcs[2], uuid);
  }

  lemma VisitArrives(acts: seq<Action>, uuid: R.Uuid, device: R.Device) returns (next: seq<Action>)
    requires FirstPostIsAt(Reached(acts), uuid, device)
    ensures R.Attached(Registry(Reached(next)), uuid, device.appId)
    ensures Registry(Reached(next)).users[uuid].sessions[device.appId] == R.Session(device, 0, [0])
    ensures Reached(next).runs(device.id) == [] + [S.Enter(0)]
  {
    var s, a := Reached(acts), R.Visit(2, uuid);
    VisitIsPossible(s, uuid, device);
    VisitDelivers(Registry(s), uuid, device);
    next := acts + [OfRegistry(a)];
    Snoc(Do, START, acts, OfRegistry(a));
    Snoc(R.Do, R.EMPTY, s.past, a);
  }

  /** The post arrives on the device's stream. */
  lemma PostArrives(uuid: R.Uuid, device: R.Device) returns (acts: seq<Action>)
    requires uuid != ""
    ensures var r := Registry(Reached(acts));
            && R.Attached(r, uuid, device.appId)
            && r.users[uuid].sessions[device.appId] == R.Session(device, 0, [0])
    ensures SessionOf(Reached(acts), device.id).written == [S.Item(0, 0)]
  {
    acts := PostUnderWay(uuid, device);
    acts := VisitArrives(acts, uuid, device);
    acts := SessionSteps(acts, device.id);
    FirstCall(0);
  }

  lemma FirstCall(e: Event)
    ensures S.Reached([] + [S.Enter(e)] + [S.Send, S.Send, S.Send]).written == [S.Item(0, e)]
  {
    var s1 := S.FRESH.(sender := S.Entered(e));
    var s2 := S.FRESH.(sender := S.Loaded(e));
    var s3 := S.FRESH.(flag := WRITING, sender := S.ToWrite(S.Item(0, e)), sent := [e]);
    var s4 := s3.(sender := S.Away, written := [S.Item(0, e)], inFlight := 1);
    assert [] + [e] == [e] && [] + [S.Item(0, e)] == [S.Item(0, e)];
    assert S.SenderStep(s2) == s3 && S.SenderStep(s3) == s4;
    Path(S.Do, [S.FRESH, s1, s2, s3, s4], [S.Enter(e), S.Send, S.Send, S.Send]);
    assert [] + [S.Enter(e)] + [S.Send, S.Send, S.Send] == [S.Enter(e), S.Send, S.Send, S.Send];
  }
}
