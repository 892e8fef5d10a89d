/** Logins and subscriptions from the endpoint down, each uninterrupted: what the database of owners and the
    registry keep between them. */
module Logins {
  import opened SessionTypes
  import opened UserInstances
  import opened UserStorages
  import opened UserDbs
  import opened CommonCallDatas

  /** A device waits only for an app id that nobody owns, or that the empty string owns. */
  ghost predicate NobodyIsKeptWaiting(owners: Owners, r: Registry) {
    forall appId, uuid :: appId in r.devices && Owns(owners, uuid, appId) ==> Owns(owners, "", appId)
  }

  /** Whoever has a token is its recorded owner. */
  ghost predicate TokensAreOwned(owners: Owners, r: Registry) {
    forall uuid, token :: HasToken(r, uuid, token) ==> Owns(owners, uuid, token)
  }

  ghost predicate Consistent(owners: Owners, r: Registry) {
    && NobodyIsKeptWaiting(owners, r) && TokensAreOwned(owners, r)
    && forall u :: u in r.users ==> Sound(r.users[u])
  }

  class Endpoint {
    const storage: UserStorage
    const db: UserDb

    ghost predicate Valid()
      reads this, storage, storage.Repr, db
    {
      storage.Valid() && db !in storage.Repr && Consistent(db.owners, storage.registry)
    }

    constructor (storage: UserStorage, db: UserDb)
      ensures this.storage == storage && this.db == db
    {
      this.storage, this.db := storage, db;
    }

    /** A refused login leaves everything as it is; otherwise the app id has an owner and, if its device
        waited, a session. */
    method LoginUser(valid: bool, uuid: string, appId: string) returns (ok: bool)
      requires Valid()
      modifies db, storage.Repr
      ensures Valid()
      ensures ok == valid
      ensures !ok ==> db.owners == old(db.owners) && storage.registry == old(storage.registry)
      ensures ok ==> db.owners == Recorded(old(db.owners), uuid, appId)
      ensures ok ==> storage.registry == LoggedIn(old(storage.registry), uuid, appId, appId)
    {
      ok := db.LoginUser(valid, uuid, appId);
      if !ok {
        return;
      }
      LoginKeepsConsistent(old(db.owners), storage.registry, uuid, appId);
      storage.LoginUser(uuid, appId, appId);
    }

    /** The accepted call's stream waits if its app id has no owner, and is attached to some owner otherwise. */
    method Subscribe(data: CommonCallData) returns (owner: string)
      requires Valid() && data !in storage.Repr && data.Valid() && !data.fired
      modifies data, storage.Repr
      ensures Valid()
      ensures Answers(db.owners, old(data.data).value.appId, owner)
      ensures storage.registry == Subscribed(old(storage.registry), old(data.data).value, owner)
    {
      ghost var before, stream := storage.registry, data.data.value;
      owner := data.OnAsyncEventFinished(storage, db);
      SubscribeKeepsConsistent(db.owners, before, stream, owner);
    }

    /** Who acts with this token: the first user in key order who has it, who is a recorded owner of it. */
    method FindUser(token: string) returns (uuid: string)
      requires Valid()
      ensures IsFirstWith(storage.registry, uuid, token)
      ensures uuid != "" ==> Owns(db.owners, uuid, token)
    {
      uuid := storage.GetUuidByAccessToken(token);
    }
  }

  lemma OwnersGrow(owners: Owners, uuid: string, appId: string, u: string, a: string)
    ensures Owns(Recorded(owners, uuid, appId), u, a) <==> Owns(owners, u, a) || (u == uuid && a == appId)
  {}

  /** A login leaves nobody waiting that it could have served. */
  lemma LoginServes(owners: Owners, r: Registry, uuid: string, appId: string)
    requires NobodyIsKeptWaiting(owners, r)
    ensures NobodyIsKeptWaiting(Recorded(owners, uuid, appId), LoggedIn(r, uuid, appId, appId))
  {
    var after := LoggedIn(r, uuid, appId, appId);
    forall a, u | a in after.devices && Owns(Recorded(owners, uuid, appId), u, a)
      ensures Owns(Recorded(owners, uuid, appId), "", a)
    {
      OwnersGrow(owners, uuid, appId, u, a);
      OwnersGrow(owners, uuid, appId, "", a);
      assert a != appId;
    }
  }

  lemma TokensStayOwned(owners: Owners, r: Registry, q: Request)
    requires TokensAreOwned(owners, r) && forall u :: u in r.users ==> Sound(r.users[u])
    requires forall uuid, token :: Gives(q, uuid, token) && HasToken(Handled(r, q), uuid, token) ==>
               Owns(owners, uuid, token)
    ensures TokensAreOwned(owners, Handled(r, q))
    ensures forall u :: u in Handled(r, q).users ==> Sound(Handled(r, q).users[u])
  {
    RequestKeeps(r, q);
    forall uuid, token | HasToken(Handled(r, q), uuid, token)
      ensures Owns(owners, uuid, token)
    {
      if !HasToken(r, uuid, token) {
        NewToken(r, q, uuid, token);
      }
    }
  }

  lemma LoginKeepsConsistent(owners: Owners, r: Registry, uuid: string, appId: string)
    requires Consistent(owners, r)
    ensures Consistent(Recorded(owners, uuid, appId), LoggedIn(r, uuid, appId, appId))
  {
    LoginServes(owners, r, uuid, appId);
    forall u, a
      ensures Owns(Recorded(owners, uuid, appId), u, a) <==> Owns(owners, u, a) || (u == uuid && a == appId)
    {
      OwnersGrow(owners, uuid, appId, u, a);
    }
    TokensStayOwned(Recorded(owners, uuid, appId), r, Login(uuid, appId, appId));
  }

  lemma NobodyWaits(owners: Owners, r: Registry, stream: Stream, owner: string)
    requires NobodyIsKeptWaiting(owners, r) && Answers(owners, stream.appId, owner)
    ensures NobodyIsKeptWaiting(owners, Subscribed(r, stream, owner))
  {}

  /** Nobody gets a token by a subscription without an owner. */
  lemma NobodyGets(owners: Owners, r: Registry, stream: Stream, token: string)
    requires TokensAreOwned(owners, r)
    requires HasToken(Subscribed(r, stream, ""), "", token)
    ensures Owns(owners, "", token)
  {
    assert HasToken(r, "", token);
  }

  lemma SubscribeKeepsConsistent(owners: Owners, r: Registry, stream: Stream, owner: string)
    requires Consistent(owners, r) && Answers(owners, stream.appId, owner)
    ensures Consistent(owners, Subscribed(r, stream, owner))
  {
    NobodyWaits(owners, r, stream, owner);
    forall token | owner == "" && HasToken(Subscribed(r, stream, owner), "", token)
      ensures Owns(owners, "", token)
    {
      NobodyGets(owners, r, stream, token);
    }
    TokensStayOwned(owners, r, Subscribe(stream, owner));
  }

  /** Posts and logoffs keep it too. */
  lemma OthersKeepConsistent(owners: Owners, r: Registry, q: Request)
    requires Consistent(owners, r) && !q.Login? && !q.Subscribe?
    ensures Consistent(owners, Handled(r, q))
  {
    TokensStayOwned(owners, r, q);
    assert Handled(r, q).devices == r.devices;
  }
}
