/** What each request means for one session and for one waiting device, without the lists. */
module RequestLaws {
  import opened SessionTypes
  import opened UserInstances
  import opened Users
  import opened UserStorages

  /** The user's session with this token. */
  function SessionAt(r: Registry, uuid: string, token: string): Option<Session> {
    if uuid in r.users && Has(r.users[uuid].sessions, token)
    then Some(r.users[uuid].sessions[IndexOf(r.users[uuid].sessions, token)])
    else None
  }

  lemma SessionAtMeans(requests: seq<Request>, uuid: string, token: string, x: Session)
    ensures var r := AllHandled(requests);
            SessionAt(r, uuid, token) == Some(x) <==>
            uuid in r.users && x in r.users[uuid].sessions && x.token == token
  {
    AlwaysSound(requests);
    var r := AllHandled(requests);
    if uuid in r.users {
      var xs := r.users[uuid].sessions;
      if i :| 0 <= i < |xs| && xs[i] == x && x.token == token {
        IndexOfFirst(xs, token, i);
      }
    }
  }

  /** A session that has just been attached to this stream. */
  predicate IsNew(x: Session, stream: Stream, token: string) {
    x.stream == stream && x.token == token && x.flag == IDLE && x.events == [] && x.onLogoff
  }

  /** One SendEvent: nothing after a shutdown, a write at rest, the end of the queue otherwise. */
  predicate IsSent(x: Session, y: Session, e: Event) {
    && y.token == x.token && y.onLogoff == x.onLogoff && y.stream.id == x.stream.id && y.stream.appId == x.stream.appId
    && match x.flag
       case SHUTDOWN => y == x
       case IDLE => y.flag == WRITING && y.stream.written == x.stream.written + [e] && y.events == x.events
       case WRITING => y.flag == WRITING && y.stream == x.stream && y.events == x.events + [e]
  }

  /** The device that a request attaches, if it attaches one. */
  function Attaching(r: Registry, q: Request): Option<Stream> {
    match q
    case Login(_, _, appId) => if appId in r.devices then Some(r.devices[appId]) else None
    case Subscribe(stream, owner) =>
      if owner == "" then None
      else if stream.appId in r.devices then Some(r.devices[stream.appId])
      else Some(stream)
    case _ => None
  }

  /** Whose session it becomes. */
  predicate AttachesTo(q: Request, uuid: string, token: string) {
    || (q.Login? && q.uuid == uuid && q.token == token)
    || (q.Subscribe? && q.owner == uuid && q.stream.appId == token)
  }

  predicate SendsTo(q: Request, uuid: string, token: string) {
    || (q.Post? && uuid in q.audience)
    || (q.PostToInstance? && q.uuid == uuid && q.token == token)
  }

  /** What becomes of the session at `token`: a new one takes its place, it is sent the event, it is gone, or it is as
      it was. */
  ghost predicate Becomes(r: Registry, q: Request, uuid: string, token: string, after: Option<Session>) {
    var before := SessionAt(r, uuid, token);
    if Attaching(r, q).Some? && AttachesTo(q, uuid, token) then
      after.Some? && IsNew(after.value, Attaching(r, q).value, token)
    else if SendsTo(q, uuid, token) && before.Some? then
      after.Some? && IsSent(before.value, after.value, q.e)
    else if q == Logoff(uuid, token) then after.None?
    else after == before
  }

  lemma LoginMeans(r: Registry, u: string, t: string, appId: string, uuid: string, token: string)
    requires forall v :: v in r.users ==> Sound(r.users[v])
    ensures Becomes(r, Login(u, t, appId), uuid, token, SessionAt(LoggedIn(r, u, t, appId), uuid, token))
  {
    if appId in r.devices && uuid == u {
      ReplacedFinds(SessionsOf(r, u), Attached(r.devices[appId], t), token);
    }
  }

  lemma SubscribeMeans(r: Registry, stream: Stream, owner: string, uuid: string, token: string)
    requires forall v :: v in r.users ==> Sound(r.users[v])
    ensures Becomes(r, Subscribe(stream, owner), uuid, token, SessionAt(Subscribed(r, stream, owner), uuid, token))
  {
    if owner != "" {
      LoginMeans(Published(r, stream), owner, stream.appId, stream.appId, uuid, token);
    }
  }

  lemma SentIs(x: Session, e: Event)
    ensures IsSent(x, Sent(x, e), e)
  {}

  lemma PostMeans(r: Registry, audience: set<string>, e: Event, uuid: string, token: string)
    ensures Becomes(r, Post(audience, e), uuid, token, SessionAt(Posted(r, audience, e), uuid, token))
  {
    if uuid in r.users {
      var xs := r.users[uuid].sessions;
      SameTokensSameIndex(xs, SentAll(xs, e), token);
      if Has(xs, token) {
        SentIs(xs[IndexOf(xs, token)], e);
      }
    }
  }

  lemma PostToInstanceMeans(r: Registry, u: string, t: string, e: Event, uuid: string, token: string)
    ensures Becomes(r, PostToInstance(u, t, e), uuid, token, SessionAt(PostedToInstance(r, u, t, e), uuid, token))
  {
    if uuid in r.users {
      var xs := r.users[uuid].sessions;
      SameTokensSameIndex(xs, SentOne(xs, t, e), token);
      if Has(xs, token) {
        SentIs(xs[IndexOf(xs, token)], e);
      }
    }
  }

  lemma LogoffMeans(r: Registry, u: string, t: string, uuid: string, token: string)
    requires forall v :: v in r.users ==> Sound(r.users[v])
    ensures Becomes(r, Logoff(u, t), uuid, token, SessionAt(Handled(r, Logoff(u, t)), uuid, token))
  {
    if HasToken(r, u, t) {
      WithoutFinds(r.users[u].sessions, t, token);
    }
  }

  /** After any requests, what the next one means for every session. */
  lemma RequestsMean(requests: seq<Request>, q: Request, uuid: string, token: string)
    ensures var r := AllHandled(requests);
            Becomes(r, q, uuid, token, SessionAt(Handled(r, q), uuid, token))
  {
    AlwaysSound(requests);
    var r := AllHandled(requests);
    match q
    case Login(u, t, appId) => LoginMeans(r, u, t, appId, uuid, token);
    case Subscribe(stream, owner) => SubscribeMeans(r, stream, owner, uuid, token);
    case Post(audience, e) => PostMeans(r, audience, e, uuid, token);
    case PostToInstance(u, t, e) => PostToInstanceMeans(r, u, t, e, uuid, token);
    case Logoff(u, t) => LogoffMeans(r, u, t, uuid, token);
  }

  /** Which device waits after a request: whoever waited goes on waiting unless the request attaches it, and a new
      subscription without an owner waits if nobody did. */
  lemma DevicesMean(r: Registry, q: Request, appId: string)
    ensures var after := Handled(r, q).devices;
            var served := || (q.Login? && q.appId == appId)
                          || (q.Subscribe? && q.owner != "" && q.stream.appId == appId);
            var arrives := q.Subscribe? && q.owner == "" && q.stream.appId == appId;
            && (appId in after <==> (appId in r.devices && !served) || arrives)
            && (appId in after ==> after[appId] == if appId in r.devices then r.devices[appId] else q.stream)
  {}
}
