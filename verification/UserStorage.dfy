/** `UserStorageImpl` with each method as one atomic step. */
module UserStorages {
  import opened SessionTypes
  import opened UserInstances
  import opened Users
  import opened UserDbs

  // ---------------------------------------------------------------- the registry's value

  datatype Account = Account(sessions: seq<Session>, onLogoff: bool)

  datatype Registry = Registry(users: map<string, Account>, devices: map<string, Stream>)

  function SessionsOf(r: Registry, uuid: string): seq<Session> {
    if uuid in r.users then r.users[uuid].sessions else []
  }

  function LoggedIn(r: Registry, uuid: string, token: string, appId: string): Registry {
    if appId !in r.devices then r
    else Registry(r.users[uuid := Account(Replaced(SessionsOf(r, uuid), Attached(r.devices[appId], token)), true)],
                  r.devices - {appId})
  }

  /** `map::emplace` keeps the first subscriber. */
  function Published(r: Registry, stream: Stream): Registry {
    if stream.appId in r.devices then r else r.(devices := r.devices[stream.appId := stream])
  }

  function Subscribed(r: Registry, stream: Stream, owner: string): Registry {
    if owner == "" then Published(r, stream)
    else LoggedIn(Published(r, stream), owner, stream.appId, stream.appId)
  }

  function Posted(r: Registry, audience: set<string>, e: Event): Registry {
    r.(users := map uuid | uuid in r.users ::
         if uuid in audience then r.users[uuid].(sessions := SentAll(r.users[uuid].sessions, e)) else r.users[uuid])
  }

  function PostedToInstance(r: Registry, uuid: string, token: string, e: Event): Registry {
    if uuid !in r.users then r
    else r.(users := r.users[uuid := r.users[uuid].(sessions := SentOne(r.users[uuid].sessions, token, e))])
  }

  /** A failed session is erased, and with the last session its user. */
  function LoggedOff(r: Registry, uuid: string, token: string): Registry
    requires uuid in r.users
  {
    var account := r.users[uuid];
    var rest := Without(account.sessions, token);
    var left := WithAccount(r, uuid, account.(sessions := rest));
    if account.onLogoff && rest == [] then left.(users := left.users - {uuid}) else left
  }

  ghost predicate HasToken(r: Registry, uuid: string, token: string) {
    uuid in r.users && Has(r.users[uuid].sessions, token)
  }

  function WithAccount(r: Registry, uuid: string, account: Account): Registry {
    r.(users := r.users[uuid := account])
  }

  lemma LoginSteps(r: Registry, uuid: string, token: string, appId: string)
    requires appId in r.devices
    ensures var there := if uuid in r.users then r else WithAccount(r, uuid, Account([], false));
            LoggedIn(r, uuid, token, appId) ==
            WithAccount(there, uuid,
              Account(Replaced(there.users[uuid].sessions, Attached(r.devices[appId], token)), true))
            .(devices := r.devices - {appId})
  {}

  lemma PostedOne(r: Registry, uuid: string, e: Event)
    requires uuid in r.users
    ensures Posted(r, {uuid}, e) ==
            WithAccount(r, uuid, r.users[uuid].(sessions := SentAll(r.users[uuid].sessions, e)))
  {}

  /** Users that were not posted to yet can be posted to next. */
  lemma PostedNext(r: Registry, audience: set<string>, uuid: string, e: Event)
    requires uuid !in audience
    ensures Posted(Posted(r, audience, e), {uuid}, e) == Posted(r, audience + {uuid}, e)
  {}

  lemma PostedNone(r: Registry, audience: set<string>, e: Event)
    requires audience !! r.users.Keys
    ensures Posted(r, audience, e) == r
  {
    assert Posted(r, audience, e).users == r.users;
  }

  // ---------------------------------------------------------------- all runs, with logoffs atomic

  datatype Request =
    | Login(uuid: string, token: string, appId: string)
    | Subscribe(stream: Stream, owner: string)
    | Post(audience: set<string>, e: Event)
    | PostToInstance(uuid: string, token: string, e: Event)
    | Logoff(uuid: string, token: string)

  function Handled(r: Registry, q: Request): Registry {
    match q
    case Login(uuid, token, appId) => LoggedIn(r, uuid, token, appId)
    case Subscribe(stream, owner) => Subscribed(r, stream, owner)
    case Post(audience, e) => Posted(r, audience, e)
    case PostToInstance(uuid, token, e) => PostedToInstance(r, uuid, token, e)
    case Logoff(uuid, token) =>
      if uuid in r.users && Has(r.users[uuid].sessions, token) then LoggedOff(r, uuid, token) else r
  }

  function AllHandled(requests: seq<Request>): Registry {
    if requests == [] then Registry(map[], map[])
    else Handled(AllHandled(requests[..|requests| - 1]), requests[|requests| - 1])
  }

  /** A registered user has a session and the logoff callback, and a token names one session. */
  ghost predicate Sound(account: Account) {
    account.sessions != [] && account.onLogoff && DistinctTokens(account.sessions)
  }

  lemma LoginKeeps(r: Registry, uuid: string, token: string, appId: string)
    requires forall u :: u in r.users ==> Sound(r.users[u])
    ensures forall u :: u in LoggedIn(r, uuid, token, appId).users ==> Sound(LoggedIn(r, uuid, token, appId).users[u])
    ensures forall u, t :: HasToken(r, u, t) ==> HasToken(LoggedIn(r, uuid, token, appId), u, t)
  {
    if appId in r.devices {
      var x := Attached(r.devices[appId], token);
      ReplacedDistinct(SessionsOf(r, uuid), x);
      forall t | HasToken(r, uuid, t)
        ensures HasToken(LoggedIn(r, uuid, token, appId), uuid, t)
      {
        ReplacedFinds(SessionsOf(r, uuid), x, t);
      }
    }
  }

  lemma PostKeeps(r: Registry, audience: set<string>, e: Event)
    requires forall u :: u in r.users ==> Sound(r.users[u])
    ensures forall u :: u in Posted(r, audience, e).users ==> Sound(Posted(r, audience, e).users[u])
    ensures forall u, t :: HasToken(r, u, t) ==> HasToken(Posted(r, audience, e), u, t)
  {
    forall u, t | HasToken(r, u, t)
      ensures Has(SentAll(r.users[u].sessions, e), t)
    {
      SameTokensSameIndex(r.users[u].sessions, SentAll(r.users[u].sessions, e), t);
    }
  }

  lemma PostToInstanceKeeps(r: Registry, uuid: string, token: string, e: Event)
    requires forall u :: u in r.users ==> Sound(r.users[u])
    ensures var after := PostedToInstance(r, uuid, token, e);
            && (forall u :: u in after.users ==> Sound(after.users[u]))
            && forall u, t :: HasToken(r, u, t) ==> HasToken(after, u, t)
  {
    forall t | HasToken(r, uuid, t)
      ensures Has(SentOne(r.users[uuid].sessions, token, e), t)
    {
      SameTokensSameIndex(r.users[uuid].sessions, SentOne(r.users[uuid].sessions, token, e), t);
    }
  }

  lemma LogoffKeeps(r: Registry, uuid: string, token: string)
    requires forall u :: u in r.users ==> Sound(r.users[u])
    requires HasToken(r, uuid, token)
    ensures var after := LoggedOff(r, uuid, token);
            && (forall u :: u in after.users ==> Sound(after.users[u]))
            && forall u, t :: HasToken(r, u, t) ==> (HasToken(after, u, t) <==> !(u == uuid && t == token))
  {
    WithoutDistinct(r.users[uuid].sessions, token);
    forall t | HasToken(r, uuid, t)
      ensures HasToken(LoggedOff(r, uuid, token), uuid, t) <==> t != token
    {
      WithoutFinds(r.users[uuid].sessions, token, t);
    }
  }

  lemma RequestKeeps(r: Registry, q: Request)
    requires forall u :: u in r.users ==> Sound(r.users[u])
    ensures forall u :: u in Handled(r, q).users ==> Sound(Handled(r, q).users[u])
    ensures forall u, t :: HasToken(r, u, t) ==> (HasToken(Handled(r, q), u, t) <==> q != Logoff(u, t))
  {
    match q
    case Login(uuid, token, appId) => LoginKeeps(r, uuid, token, appId);
    case Subscribe(stream, owner) =>
      if owner != "" {
        LoginKeeps(Published(r, stream), owner, stream.appId, stream.appId);
      }
    case Post(audience, e) => PostKeeps(r, audience, e);
    case PostToInstance(uuid, token, e) => PostToInstanceKeeps(r, uuid, token, e);
    case Logoff(uuid, token) =>
      if HasToken(r, uuid, token) {
        LogoffKeeps(r, uuid, token);
      }
  }

  /** After any requests every registered user has a session, his logoff callback, and distinct tokens. */
  lemma {:induction false} AlwaysSound(requests: seq<Request>)
    ensures forall u :: u in AllHandled(requests).users ==> Sound(AllHandled(requests).users[u])
  {
    if requests != [] {
      AlwaysSound(requests[..|requests| - 1]);
      RequestKeeps(AllHandled(requests[..|requests| - 1]), requests[|requests| - 1]);
    }
  }

  /** A token is lost to a user by the logoff of its session and by nothing else. */
  lemma LostByLogoffOnly(requests: seq<Request>, q: Request, uuid: string, token: string)
    requires HasToken(AllHandled(requests), uuid, token)
    ensures HasToken(Handled(AllHandled(requests), q), uuid, token) <==> q != Logoff(uuid, token)
  {
    AlwaysSound(requests);
    RequestKeeps(AllHandled(requests), q);
  }

  /** Only a login, or a subscription whose owner is known, gives a user a token. */
  predicate Gives(q: Request, uuid: string, token: string) {
    || (q.Login? && q.uuid == uuid && q.token == token)
    || (q.Subscribe? && q.owner == uuid && q.stream.appId == token)
  }

  lemma NewToken(r: Registry, q: Request, uuid: string, token: string)
    requires forall u :: u in r.users ==> Sound(r.users[u])
    requires HasToken(Handled(r, q), uuid, token) && !HasToken(r, uuid, token)
    ensures Gives(q, uuid, token)
  {
    match q
    case Login(u, t, appId) =>
      NewInLogin(r, u, t, appId, uuid, token);
    case Subscribe(stream, owner) =>
      if owner != "" {
        NewInLogin(Published(r, stream), owner, stream.appId, stream.appId, uuid, token);
      }
    case Post(audience, e) => PostGivesNone(r, audience, e, uuid, token);
    case PostToInstance(u, t, e) => PostToInstanceGivesNone(r, u, t, e, uuid, token);
    case Logoff(u, t) =>
      if HasToken(r, u, t) {
        LogoffGivesNone(r, u, t, uuid, token);
      }
  }

  lemma PostGivesNone(r: Registry, audience: set<string>, e: Event, uuid: string, token: string)
    requires HasToken(Posted(r, audience, e), uuid, token)
    ensures HasToken(r, uuid, token)
  {
    SameTokensSameIndex(SessionsOf(r, uuid), SentAll(SessionsOf(r, uuid), e), token);
  }

  lemma PostToInstanceGivesNone(r: Registry, u: string, t: string, e: Event, uuid: string, token: string)
    requires HasToken(PostedToInstance(r, u, t, e), uuid, token)
    ensures HasToken(r, uuid, token)
  {
    SameTokensSameIndex(SessionsOf(r, uuid), SentOne(SessionsOf(r, uuid), t, e), token);
  }

  lemma LogoffGivesNone(r: Registry, u: string, t: string, uuid: string, token: string)
    requires HasToken(r, u, t) && DistinctTokens(r.users[u].sessions)
    requires HasToken(LoggedOff(r, u, t), uuid, token)
    ensures HasToken(r, uuid, token)
  {
    WithoutFinds(r.users[u].sessions, t, token);
  }

  lemma NewInLogin(r: Registry, u: string, t: string, appId: string, uuid: string, token: string)
    requires forall v :: v in r.users ==> Sound(r.users[v])
    requires HasToken(LoggedIn(r, u, t, appId), uuid, token) && !HasToken(r, uuid, token)
    ensures uuid == u && token == t
  {
    if uuid == u {
      ReplacedFinds(SessionsOf(r, u), Attached(r.devices[appId], t), token);
    }
  }

  /** Whoever has a token got it from a login or subscription of his. */
  lemma {:induction false} TokensAreGiven(requests: seq<Request>, uuid: string, token: string) returns (k: nat)
    requires HasToken(AllHandled(requests), uuid, token)
    ensures k < |requests| && Gives(requests[k], uuid, token)
  {
    var n := |requests| - 1;
    if HasToken(AllHandled(requests[..n]), uuid, token) {
      k := TokensAreGiven(requests[..n], uuid, token);
    } else {
      AlwaysSound(requests[..n]);
      NewToken(AllHandled(requests[..n]), requests[n], uuid, token);
      k := n;
    }
  }

  // ---------------------------------------------------------------- the order of std::map's keys

  predicate Less(a: string, b: string) {
    b != [] && (a == [] || a[0] < b[0] || (a[0] == b[0] && Less(a[1..], b[1..])))
  }

  lemma {:induction false} LessTotal(a: string, b: string)
    ensures a == b || Less(a, b) || Less(b, a)
  {
    if a != [] && b != [] && a[0] == b[0] {
      LessTotal(a[1..], b[1..]);
      if a[1..] == b[1..] {
        assert a == [a[0]] + a[1..] && b == [b[0]] + b[1..];
      }
    }
  }

  lemma {:induction false} LessTransitive(a: string, b: string, c: string)
    requires Less(a, b) && Less(b, c)
    ensures Less(a, c)
  {
    if a != [] && a[0] == b[0] && b[0] == c[0] {
      LessTransitive(a[1..], b[1..], c[1..]);
    }
  }

  /** It is the lexicographic order: the first difference decides, and a proper prefix comes first. */
  lemma {:induction false} LessMeans(a: string, b: string)
    ensures Less(a, b) <==> exists k :: FirstDifference(a, b, k)
  {
    if a != [] && b != [] && a[0] == b[0] {
      LessMeans(a[1..], b[1..]);
      if k :| FirstDifference(a[1..], b[1..], k) {
        FirstDifferenceBehind(a, b, k);
      }
      if k :| FirstDifference(a, b, k) {
        FirstDifferenceBehind(a, b, k - 1);
      }
    } else if b != [] {
      assert a == [] || a[0] < b[0] ==> FirstDifference(a, b, 0);
      assert a != [] ==> forall k :: FirstDifference(a, b, k) ==> a[..k] == b[..k] && (k > 0 ==> a[..k][0] == b[..k][0]);
    }
  }

  predicate FirstDifference(a: string, b: string, k: int) {
    && 0 <= k < |b| && k <= |a| && a[..k] == b[..k]
    && (k == |a| || a[k] < b[k])
  }

  lemma FirstDifferenceBehind(a: string, b: string, k: int)
    requires a != [] && b != [] && a[0] == b[0]
    ensures FirstDifference(a, b, k + 1) <==> FirstDifference(a[1..], b[1..], k)
  {
    if 0 <= k < |b| - 1 && k < |a| {
      assert a[..k + 1] == [a[0]] + a[1..][..k] && b[..k + 1] == [b[0]] + b[1..][..k];
    }
  }

  predicate IsLeast(k: string, keys: set<string>) {
    k in keys && forall j :: j in keys ==> j == k || Less(k, j)
  }

  lemma {:induction false} LeastExists(keys: set<string>) returns (k: string)
    requires keys != {}
    ensures IsLeast(k, keys)
  {
    k :| k in keys;
    var rest := keys - {k};
    if rest == {} {
      assert forall j :: j in keys ==> j == k || j in rest;
    } else {
      var m := LeastExists(rest);
      LessTotal(k, m);
      forall j | j in keys
        ensures j == k || j == m || Less(m, j)
      {
        assert j == k || j in rest;
      }
      if Less(m, k) {
        k := m;
      } else {
        forall j | j in keys && j != k
          ensures Less(k, j)
        {
          if j != m {
            LessTransitive(k, m, j);
          }
        }
      }
    }
  }

  lemma FirstWith(r: Registry, todo: set<string>, uuid: string, token: string)
    requires IsLeast(uuid, todo) && HasToken(r, uuid, token)
    requires forall u :: HasToken(r, u, token) ==> u in todo
    ensures IsFirstWith(r, uuid, token)
  {}

  /** The first user in key order with this token, the empty string if nobody has it. */
  ghost predicate IsFirstWith(r: Registry, uuid: string, token: string) {
    && (uuid != "" ==> HasToken(r, uuid, token))
    && forall u :: HasToken(r, u, token) ==> HasToken(r, uuid, token) && (u == uuid || Less(uuid, u))
  }

  lemma {:induction false} LessIsStrict(a: string, b: string)
    requires Less(a, b)
    ensures !Less(b, a)
  {
    if a != [] && a[0] == b[0] {
      LessIsStrict(a[1..], b[1..]);
    }
  }

  /** The look-up has one answer. */
  lemma FirstWithIsOne(r: Registry, uuid: string, other: string, token: string)
    requires IsFirstWith(r, uuid, token) && IsFirstWith(r, other, token)
    ensures uuid == other
  {
    if uuid != other && Less(uuid, other) {
      LessIsStrict(uuid, other);
    }
  }

  // ---------------------------------------------------------------- the class

  class UserStorage {
    var users: map<string, User>
    var devices: map<string, Stream>
    ghost var registry: Registry
    ghost var Repr: set<object>

    /** Users share nothing, and `registry` is the storage's value. */
    ghost predicate Valid()
      reads this, Repr
    {
      Apart() && Told()
    }

    ghost predicate Apart()
      reads this, Repr
    {
      && this in Repr
      && (forall u :: u in users ==> users[u] in Repr && users[u].Repr <= Repr && this !in users[u].Repr)
      && (forall u, v :: u in users && v in users && u != v ==> users[u].Repr !! users[v].Repr)
    }

    ghost predicate Told()
      requires Apart()
      reads this, Repr
    {
      && registry.devices == devices && registry.users.Keys == users.Keys
      && forall u :: u in users ==> Represents(users[u], u, registry.users[u])
    }

    constructor ()
      ensures Valid() && fresh(Repr) && registry == Registry(map[], map[])
    {
      users, devices, registry, Repr := map[], map[], Registry(map[], map[]), {this};
    }

    /** One user and his sessions have changed, and `registry` says how. */
    twostate lemma OneUserChanged(uuid: string)
      requires old(Valid()) && uuid in old(users) && users == old(users) && devices == old(devices)
      requires users[uuid].Valid() && Repr == old(Repr) + users[uuid].Repr
      requires fresh(users[uuid].Repr - old(users[uuid].Repr))
      requires registry == WithAccount(old(registry), uuid, Account(users[uuid].sessions, users[uuid].onLogoff))
      requires forall o: object :: o in old(Repr) && o != this && o !in old(users[uuid].Repr) ==> unchanged(o)
      ensures Valid()
    {
      OthersUnchanged(uuid);
      StillApart(uuid);
      StillTold(uuid);
    }

    twostate lemma StillTold(uuid: string)
      requires old(Valid()) && Apart() && uuid in old(users) && users == old(users) && devices == old(devices)
      requires users[uuid].Valid()
      requires registry == WithAccount(old(registry), uuid, Account(users[uuid].sessions, users[uuid].onLogoff))
      requires forall u :: u in users && u != uuid ==> Represents(users[u], u, old(registry.users[u]))
      ensures Told()
    {}

    twostate lemma StillApart(uuid: string)
      requires old(Apart()) && uuid in old(users) && users == old(users)
      requires Repr == old(Repr) + users[uuid].Repr && fresh(users[uuid].Repr - old(users[uuid].Repr))
      requires forall u :: u in users && u != uuid ==> users[u].Repr == old(users[u].Repr)
      ensures Apart()
    {}

    twostate lemma OthersUnchanged(uuid: string)
      requires old(Valid()) && uuid in old(users)
      requires fresh(old(users[uuid]).Repr - old(users[uuid].Repr))
      requires forall o: object :: o in old(Repr) && o != this && o !in old(users[uuid].Repr) ==> unchanged(o)
      ensures forall u :: u in old(users) && u != uuid ==>
                Represents(old(users[u]), u, old(registry.users[u])) && unchanged(old(users[u]))
      ensures forall u :: u in old(users) && u != uuid ==>
                old(users[u].Repr) !! old(users[uuid]).Repr
    {}

    // -------------------------------------------------------------- posts

    method PostEventToUser(uuid: string, e: Event) returns (any: bool)
      requires Valid()
      modifies Repr
      ensures Valid() && Repr == old(Repr) && users == old(users)
      ensures registry == Posted(old(registry), {uuid}, e)
      ensures any <==> SessionsOf(old(registry), uuid) != []
    {
      any := false;
      if uuid in users {
        PostedOne(registry, uuid, e);
        any := users[uuid].PostEvent(e);
        registry := WithAccount(registry, uuid, Account(users[uuid].sessions, users[uuid].onLogoff));
        OneUserChanged(uuid);
      } else {
        PostedNone(registry, {uuid}, e);
      }
    }

    method PostToAllUsers(e: Event)
      requires Valid()
      modifies Repr
      ensures Valid() && Repr == old(Repr)
      ensures registry == Posted(old(registry), old(users).Keys, e)
    {
      ghost var start := registry;
      PostedNone(start, {}, e);
      var todo := users.Keys;
      while todo != {}
        invariant Valid() && users == old(users) && Repr == old(Repr)
        invariant todo <= users.Keys && registry == Posted(start, users.Keys - todo, e)
      {
        var uuid :| uuid in todo;
        PostToNext(uuid, e, start, users.Keys - todo);
        assert users.Keys - todo + {uuid} == users.Keys - (todo - {uuid});
        todo := todo - {uuid};
      }
      assert users.Keys - todo == users.Keys;
    }

    method PostToNext(uuid: string, e: Event, ghost start: Registry, ghost done: set<string>)
      requires Valid() && uuid !in done && registry == Posted(start, done, e)
      modifies Repr
      ensures Valid() && Repr == old(Repr) && users == old(users)
      ensures registry == Posted(start, done + {uuid}, e)
    {
      PostedNext(start, done, uuid, e);
      var any := PostEventToUser(uuid, e);
    }

    method PostEventToInstance(uuid: string, token: string, e: Event) returns (found: bool)
      requires Valid()
      modifies Repr
      ensures Valid() && Repr == old(Repr)
      ensures registry == PostedToInstance(old(registry), uuid, token, e)
      ensures found <==> HasToken(old(registry), uuid, token)
    {
      found := false;
      if uuid in users {
        found := users[uuid].PostEventToInstance(token, e);
        registry := WithAccount(registry, uuid, Account(users[uuid].sessions, users[uuid].onLogoff));
        OneUserChanged(uuid);
      }
    }

    // -------------------------------------------------------------- sessions come and go

    method LoginUser(uuid: string, token: string, appId: string)
      requires Valid()
      modifies Repr
      ensures Valid() && fresh(Repr - old(Repr))
      ensures registry == LoggedIn(old(registry), uuid, token, appId)
    {
      if appId in devices {
        LoginSteps(registry, uuid, token, appId);
        if uuid !in users {
          EmplaceUser(uuid);
        }
        AttachTo(uuid, devices[appId], token);
        EraseDevice(appId);
      }
    }

    method EraseDevice(appId: string)
      requires Valid()
      modifies this`devices, this`registry
      ensures Valid() && registry == old(registry).(devices := old(registry).devices - {appId})
    {
      devices := devices - {appId};
      registry := registry.(devices := devices);
    }

    method EmplaceUser(uuid: string)
      requires Valid() && uuid !in users
      modifies this
      ensures Valid() && fresh(Repr - old(Repr)) && devices == old(devices)
      ensures registry == WithAccount(old(registry), uuid, Account([], false))
    {
      var user := new User(uuid);
      assert Represents(user, uuid, Account([], false));
      users, Repr := users[uuid := user], Repr + user.Repr;
      assert Apart();
      registry := WithAccount(registry, uuid, Account([], false));
    }

    /** A session for one user, whose logoff callback is installed. */
    method AttachTo(uuid: string, stream: Stream, token: string)
      requires Valid() && uuid in users
      modifies Repr
      ensures Valid() && fresh(Repr - old(Repr)) && devices == old(devices)
      ensures registry == WithAccount(old(registry), uuid,
                            Account(Replaced(old(registry).users[uuid].sessions, Attached(stream, token)), true))
    {
      var user := users[uuid];
      var ok := user.LoginNewInstance(stream, token);
      user.ConnectToUserLogoff();
      assert this !in user.Repr;
      Repr := Repr + user.Repr;
      registry := WithAccount(registry, uuid, Account(user.sessions, user.onLogoff));
      assert user.Valid();
      OneUserChanged(uuid);
    }

    /** The device is published before the database is asked for its owner. */
    method OnNewEventsSubscriber(stream: Stream, db: UserDb) returns (owner: string)
      requires Valid() && db !in Repr
      modifies Repr
      ensures Valid() && fresh(Repr - old(Repr))
      ensures Answers(db.owners, stream.appId, owner)
      ensures registry == Subscribed(old(registry), stream, owner)
    {
      Publish(stream);
      owner := db.GetUuidByAppId(stream.appId);
      if owner != "" {
        LoginUser(owner, stream.appId, stream.appId);
      }
    }

    /** `m_connected_devices.emplace`. */
    method Publish(stream: Stream)
      requires Valid()
      modifies this`devices, this`registry
      ensures Valid() && registry == Published(old(registry), stream)
    {
      if stream.appId !in devices {
        devices := devices[stream.appId := stream];
        registry := registry.(devices := devices);
      }
    }

    /** The callback of a failed session, which has this token. */
    method OnSessionLogoff(uuid: string, token: string)
      requires Valid() && HasToken(registry, uuid, token)
      modifies Repr
      ensures Valid() && Repr == old(Repr)
      ensures registry == LoggedOff(old(registry), uuid, token)
    {
      var last := EraseFrom(uuid, token);
      if last {
        EraseUser(uuid);
      }
    }

    method EraseUser(uuid: string)
      requires Valid()
      modifies this`users, this`registry
      ensures Valid() && registry == old(registry).(users := old(registry).users - {uuid})
    {
      users := users - {uuid};
      registry := registry.(users := registry.users - {uuid});
    }

    method EraseFrom(uuid: string, token: string) returns (last: bool)
      requires Valid() && HasToken(registry, uuid, token)
      modifies Repr
      ensures Valid() && Repr == old(Repr) && users == old(users)
      ensures var account := old(registry).users[uuid];
              var rest := Without(account.sessions, token);
              && registry == WithAccount(old(registry), uuid, account.(sessions := rest))
              && (last <==> account.onLogoff && rest == [])
    {
      last := users[uuid].EraseSession(token);
      registry := WithAccount(registry, uuid, Account(users[uuid].sessions, users[uuid].onLogoff));
      OneUserChanged(uuid);
    }

    // -------------------------------------------------------------- look-up

    method GetUuidByAccessToken(token: string) returns (uuid: string)
      requires Valid()
      ensures IsFirstWith(registry, uuid, token)
    {
      var todo := users.Keys;
      while todo != {}
        invariant todo <= users.Keys
        invariant forall u :: HasToken(registry, u, token) ==> u in todo
      {
        var least := LeastExists(todo);
        uuid :| uuid in todo && IsLeast(uuid, todo);
        var found := users[uuid].HasInstance(token);
        if found {
          FirstWith(registry, todo, uuid, token);
          return;
        }
        todo := todo - {uuid};
      }
      return "";
    }
  }

  ghost predicate Represents(user: User, uuid: string, account: Account)
    reads user, user.Repr
  {
    && user.Valid() && user.uuid == uuid
    && user.sessions == account.sessions && user.onLogoff == account.onLogoff
  }
}
