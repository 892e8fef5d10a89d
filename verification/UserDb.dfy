/** The database's users: who owns which app id. */
module UserDbs {
  /** Each user's app ids. */
  type Owners = map<string, seq<string>>

  predicate Owns(owners: Owners, uuid: string, appId: string) {
    uuid in owners && appId in owners[uuid]
  }

  ghost predicate Answers(owners: Owners, appId: string, uuid: string) {
    Owns(owners, uuid, appId) || (uuid == "" && forall u :: !Owns(owners, u, appId))
  }

  /** A new user is inserted; an existing one gets the app id by `$addToSet`. */
  function Recorded(owners: Owners, uuid: string, appId: string): Owners {
    if uuid !in owners then owners[uuid := [appId]]
    else if appId in owners[uuid] then owners
    else owners[uuid := owners[uuid] + [appId]]
  }

  class UserDb {
    var owners: Owners

    constructor ()
      ensures owners == map[]
    {
      owners := map[];
    }

    /** `valid`: the request has a supported type and a token that can be decoded. */
    method LoginUser(valid: bool, uuid: string, appId: string) returns (ok: bool)
      modifies this
      ensures owners == if valid then Recorded(old(owners), uuid, appId) else old(owners)
      ensures ok == valid
    {
      if !valid {
        return false;
      }
      if uuid in owners {
        if appId !in owners[uuid] {
          owners := owners[uuid := owners[uuid] + [appId]];
        }
      } else {
        owners := owners[uuid := [appId]];
      }
      return true;
    }

    /** Some owner, the empty string if there is none. */
    method GetUuidByAppId(appId: string) returns (uuid: string)
      ensures Answers(owners, appId, uuid)
    {
      if uuid' :| uuid' in owners && appId in owners[uuid'] {
        return uuid';
      }
      return "";
    }
  }
}
