/** The session registry (`UserStorageImpl`, `User`) and the requests that drive it, interleaved.

    A step is what one thread does under the storage mutex, under one user's instances mutex, or in one
    database operation.  A post holds the storage mutex from its first to its last user; a failed session
    leaves its user's list without it, and afterwards takes the storage mutex to drop an empty user. */
module RegistrySteps {
  import opened Runs

  type Uuid = string
  type Token = string
  type AppId = string
  type Tid = nat

  /** A subscription's call data. */
  datatype Device = Device(id: nat, appId: AppId)

  /** `since` is the length of the log when the session was attached, `received` the posts for which
      SendEvent was called on it, as positions in the log. */
  datatype Session = Session(device: Device, since: nat, received: seq<nat>)

  /** Tokens are distinct within a user, so the list of sessions is a map. */
  datatype User = User(sessions: map<Token, Session>, onLogoff: bool)

  datatype Audience = Everybody | OneUser(uuid: Uuid) | OneInstance(uuid: Uuid, token: Token)

  datatype Pc =
    | Publishing(device: Device)                              // OnNewEventsSubscriber: wants m_mtx
    | Querying(appId: AppId)                                  // about to read the database
    | WantsLogin(uuid: Uuid, token: Token, appId: AppId)      // UserStorageImpl::LoginUser: wants m_mtx
    | Recording(uuid: Uuid, appId: AppId)                     // endpoint LoginUser: about to write the database
    | WantsPost(audience: Audience)                           // wants m_mtx
    | Posting(audience: Audience, at: nat, visited: set<Uuid>)  // holds it
    | CheckingEmpty(uuid: Uuid)                               // session erased; about to test for emptiness
    | DroppingUser(uuid: Uuid)                                // wants m_mtx
    | Done

  datatype Owner = Free | By(t: Tid)

  /** Where a retired session was, and the session. */
  datatype Retired = Retired(uuid: Uuid, token: Token, session: Session)

  /** `log` records the posts in the order in which they took the storage mutex, `accepted` the call data
      handed to the registry, `discarded` those destroyed, `retired` the sessions destroyed. */
  datatype State = State(
    users: map<Uuid, User>,
    devices: map<AppId, Device>,
    owners: map<Uuid, set<AppId>>,
    storage: Owner,
    pcs: map<Tid, Pc>,
    log: seq<Audience>,
    accepted: map<nat, AppId>,
    discarded: set<nat>,
    retired: set<Retired>)

  const EMPTY := State(map[], map[], map[], Free, map[], [], map[], {}, {})

  datatype Action =
    | Subscribe(t: Tid, device: Device)
    | Login(t: Tid, uuid: Uuid, appId: AppId)
    | Post(t: Tid, audience: Audience)
    | SessionFails(t: Tid, uuid: Uuid, token: Token)  // OnFinished's callback erases the session
    | Step(t: Tid)
    | Answer(t: Tid, uuid: Uuid)                      // the database's answer to a query
    | Visit(t: Tid, uuid: Uuid)                       // a post reaches a user

  function Do(s: State, a: Action): State {
    if Enabled(s, a) then Effect(s, a).(pcs := s.pcs[a.t := NextPc(s, a)]) else s
  }

  predicate Enabled(s: State, a: Action) {
    match a
    case Subscribe(t, device) => t !in s.pcs && device.id !in s.accepted
    case Login(t, _, _) => t !in s.pcs
    case Post(t, _) => t !in s.pcs
    case SessionFails(t, uuid, token) => t !in s.pcs && Attached(s, uuid, token)
    case Answer(t, uuid) => t in s.pcs && s.pcs[t].Querying? && Answers(s, s.pcs[t].appId, uuid)
    case Visit(t, uuid) => t in s.pcs && s.pcs[t].Posting? && ToVisit(s, s.pcs[t], uuid)
    case Step(t) =>
      && t in s.pcs && !s.pcs[t].Querying? && !s.pcs[t].Done?
      && (WantsStorage(s.pcs[t]) ==> s.storage.Free?)
      && (s.pcs[t].Posting? ==> forall uuid :: uuid in s.users ==> !ToVisit(s, s.pcs[t], uuid))
  }

  predicate WantsStorage(pc: Pc) {
    pc.Publishing? || pc.WantsLogin? || pc.WantsPost? || pc.DroppingUser?
  }

  predicate Attached(s: State, uuid: Uuid, token: Token) {
    uuid in s.users && token in s.users[uuid].sessions
  }

  predicate Owns(s: State, uuid: Uuid, appId: AppId) {
    uuid in s.owners && appId in s.owners[uuid]
  }

  /** GetUuidByAppId: some recorded owner if there is any, else the empty string. */
  predicate Answers(s: State, appId: AppId, uuid: Uuid) {
    Owns(s, uuid, appId) || (uuid == "" && forall u :: u in s.owners ==> !Owns(s, u, appId))
  }

  predicate Hits(audience: Audience, uuid: Uuid, token: Token) {
    match audience
    case Everybody => true
    case OneUser(u) => u == uuid
    case OneInstance(u, k) => u == uuid && k == token
  }

  predicate HitsUser(audience: Audience, uuid: Uuid) {
    audience.Everybody? || audience.uuid == uuid
  }

  predicate ToVisit(s: State, pc: Pc, uuid: Uuid)
    requires pc.Posting?
  {
    uuid in s.users && uuid !in pc.visited && HitsUser(pc.audience, uuid)
  }

  function NextPc(s: State, a: Action): Pc
    requires Enabled(s, a)
  {
    match a
    case Subscribe(_, device) => Publishing(device)
    case Login(_, uuid, appId) => Recording(uuid, appId)
    case Post(_, audience) => WantsPost(audience)
    case SessionFails(_, uuid, _) => CheckingEmpty(uuid)
    case Answer(t, uuid) => if uuid == "" then Done else WantsLogin(uuid, s.pcs[t].appId, s.pcs[t].appId)
    case Visit(t, uuid) => s.pcs[t].(visited := s.pcs[t].visited + {uuid})
    case Step(t) =>
      match s.pcs[t]
      case Publishing(device) => Querying(device.appId)
      case Recording(uuid, appId) => WantsLogin(uuid, appId, appId)
      case WantsPost(audience) => Posting(audience, |s.log|, {})
      case CheckingEmpty(uuid) => if HasSessions(s, uuid) || !HasCallback(s, uuid) then Done else DroppingUser(uuid)
      case _ => Done
  }

  /** A user that is gone already is asked all the same. */
  predicate HasCallback(s: State, uuid: Uuid) {
    uuid in s.users ==> s.users[uuid].onLogoff
  }

  predicate HasSessions(s: State, uuid: Uuid) {
    uuid in s.users && s.users[uuid].sessions != map[]
  }

  function Effect(s: State, a: Action): (s': State)
    requires Enabled(s, a)
  {
    match a
    case Subscribe(_, device) => s.(accepted := s.accepted[device.id := device.appId])
    case SessionFails(_, uuid, token) => EraseSession(s, uuid, token)
    case Visit(t, uuid) => Deliver(s, s.pcs[t].audience, s.pcs[t].at, uuid)
    case Step(t) =>
      (match s.pcs[t]
       case Publishing(device) => Publish(s, device)
       case Recording(uuid, appId) => s.(owners := s.owners[uuid := AppIds(s, uuid) + {appId}])
       case WantsLogin(uuid, token, appId) => LoginUser(s, uuid, token, appId)
       case WantsPost(audience) => s.(log := s.log + [audience], storage := By(t))
       case Posting(_, _, _) => s.(storage := Free)
       case DroppingUser(uuid) => DropUser(s, uuid)
       case _ => s)
    case _ => s
  }

  function AppIds(s: State, uuid: Uuid): set<AppId> {
    if uuid in s.owners then s.owners[uuid] else {}
  }

  /** `map::emplace`: the first subscriber for an app id stays, the new call data is destroyed. */
  function Publish(s: State, device: Device): State {
    if device.appId in s.devices then s.(discarded := s.discarded + {device.id})
    else s.(devices := s.devices[device.appId := device])
  }

  function SessionsOf(s: State, uuid: Uuid): map<Token, Session> {
    if uuid in s.users then s.users[uuid].sessions else map[]
  }

  /** Attach the device waiting for `appId`, if any, in the place of a session with the same token. */
  function LoginUser(s: State, uuid: Uuid, token: Token, appId: AppId): State {
    if appId !in s.devices then s
    else
      var sessions := SessionsOf(s, uuid);
      s.(users := s.users[uuid := User(sessions[token := Session(s.devices[appId], |s.log|, [])], true)],
         devices := s.devices - {appId},
         discarded := if token in sessions then s.discarded + {sessions[token].device.id} else s.discarded,
         retired := if token in sessions then s.retired + {Retired(uuid, token, sessions[token])} else s.retired)
  }

  function EraseSession(s: State, uuid: Uuid, token: Token): State
    requires Attached(s, uuid, token)
  {
    var user := s.users[uuid];
    s.(users := s.users[uuid := user.(sessions := user.sessions - {token})],
       discarded := s.discarded + {user.sessions[token].device.id},
       retired := s.retired + {Retired(uuid, token, user.sessions[token])})
  }

  /** `m_users.erase`: a user is destroyed with all sessions it has by now. */
  function DropUser(s: State, uuid: Uuid): State {
    if uuid !in s.users then s
    else
      var sessions := s.users[uuid].sessions;
      s.(users := s.users - {uuid},
         discarded := s.discarded + (set token | token in sessions :: sessions[token].device.id),
         retired := s.retired + (set token | token in sessions :: Retired(uuid, token, sessions[token])))
  }

  /** SendEvent on every session of the user that the post is for. */
  function Deliver(s: State, audience: Audience, at: nat, uuid: Uuid): State
    requires uuid in s.users
  {
    var user := s.users[uuid];
    s.(users := s.users[uuid := user.(sessions := map token | token in user.sessions ::
         Received(user.sessions[token], audience, at, uuid, token))])
  }

  function Received(session: Session, audience: Audience, at: nat, uuid: Uuid, token: Token): Session {
    if Hits(audience, uuid, token) then session.(received := session.received + [at]) else session
  }

  /** The actions that touch sessions or pending devices. */
  predicate Moving(s: State, a: Action)
    requires Enabled(s, a)
  {
    || a.SessionFails? || a.Visit?
    || (a.Step? && (s.pcs[a.t].Publishing? || s.pcs[a.t].WantsLogin? || s.pcs[a.t].DroppingUser?))
  }

  lemma OthersMoveNothing(s: State, a: Action)
    requires Enabled(s, a) && !Moving(s, a)
    ensures Do(s, a).users == s.users && Do(s, a).devices == s.devices
    ensures Do(s, a).discarded == s.discarded && Do(s, a).retired == s.retired
  {}

  lemma StepMoves(s: State, t: Tid)
    requires Enabled(s, Step(t)) && Moving(s, Step(t))
    ensures var s', pc := Do(s, Step(t)), s.pcs[t];
            s' == (if pc.Publishing? then Publish(s, pc.device)
                   else if pc.WantsLogin? then LoginUser(s, pc.uuid, pc.token, pc.appId)
                   else DropUser(s, pc.uuid)).(pcs := s'.pcs)
  {}

  ghost function Reached(acts: seq<Action>): State {
    After(Do, EMPTY, acts)
  }
}
