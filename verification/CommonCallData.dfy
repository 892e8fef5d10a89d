/** `CommonCallData`: a subscription's stream, handed to the registry once. */
module CommonCallDatas {
  import opened SessionTypes
  import opened UserInstances
  import opened UserStorages
  import opened UserDbs

  class CommonCallData {
    var data: Option<Stream>
    var fired: bool

    ghost predicate Valid()
      reads this
    {
      data.Some? || fired
    }

    constructor (stream: Stream)
      ensures Valid() && data == Some(stream) && !fired
    {
      data, fired := Some(stream), false;
    }

    /** Move assignment: the stream changes owner, the one-shot flag is copied. */
    method MoveFrom(r: CommonCallData)
      requires this != r
      modifies this, r
      ensures data == old(r.data) && fired == old(r.fired) && r.data.None? && r.fired == old(r.fired)
    {
      data, r.data := r.data, None;
      fired := r.fired;
    }

    /** The subscription has arrived: its stream goes to the registry, which keeps or attaches it, and
        nothing of it stays behind. */
    method OnAsyncEventFinished(storage: UserStorage, db: UserDb) returns (owner: string)
      requires Valid() && !fired && storage.Valid() && this !in storage.Repr && db !in storage.Repr
      modifies this, storage.Repr
      ensures fired && data.None?
      ensures storage.Valid() && fresh(storage.Repr - old(storage.Repr))
      ensures Answers(db.owners, old(data).value.appId, owner)
      ensures storage.registry == Subscribed(old(storage.registry), old(data).value, owner)
    {
      fired := true;
      var stream := data.value;
      data := None;
      owner := storage.OnNewEventsSubscriber(stream, db);
    }
  }
}
