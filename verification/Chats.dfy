/** Chats: their participants in the database, and the endpoint's messages to them. */
module Chats {
  import opened SessionTypes
  import opened UserInstances
  import opened Users
  import opened UserStorages

  /** Chat id to participants. */
  type Chats = map<string, seq<string>>

  predicate Distinct(parts: seq<string>) {
    forall i, j :: 0 <= i < j < |parts| ==> parts[i] != parts[j]
  }

  function Participants(chats: Chats, chat: string): seq<string> {
    if chat in chats then chats[chat] else []
  }

  function Members(parts: seq<string>): set<string> {
    set part | part in parts
  }

  // ---------------------------------------------------------------- all runs

  datatype Change = MarkerAdded(creator: string, chat: string) | Joined(chat: string, uuid: string)

  /** A marker with an empty creator gets no chat; `$addToSet` leaves a member, and a chat that does not
      exist, alone. */
  function Changed(chats: Chats, c: Change): Chats {
    match c
    case MarkerAdded(creator, chat) => if creator == "" then chats else chats[chat := [creator]]
    case Joined(chat, uuid) =>
      if chat !in chats || uuid in chats[chat] then chats else chats[chat := chats[chat] + [uuid]]
  }

  function AllChanged(changes: seq<Change>): Chats {
    if changes == [] then map[] else Changed(AllChanged(changes[..|changes| - 1]), changes[|changes| - 1])
  }

  /** However often users join, nobody is listed twice. */
  lemma {:induction false} ParticipantsDistinct(changes: seq<Change>, chat: string)
    ensures Distinct(Participants(AllChanged(changes), chat))
  {
    if changes != [] {
      ParticipantsDistinct(changes[..|changes| - 1], chat);
    }
  }

  /** Change `i` made the chat, and no later one made it anew. */
  ghost predicate MadeLast(changes: seq<Change>, i: int, chat: string) {
    && 0 <= i < |changes| && Makes(changes[i], chat)
    && forall j :: i < j < |changes| ==> !Makes(changes[j], chat)
  }

  predicate Makes(c: Change, chat: string) {
    c.MarkerAdded? && c.creator != "" && c.chat == chat
  }

  /** A chat exists exactly if a marker with a creator made it. */
  lemma {:induction false} ChatsExactly(changes: seq<Change>, chat: string)
    ensures chat in AllChanged(changes) <==> exists i :: MadeLast(changes, i, chat)
  {
    if changes != [] {
      var n := |changes| - 1;
      ChatsExactly(changes[..n], chat);
      MadeLastSnoc(changes, chat);
      if Makes(changes[n], chat) {
        assert MadeLast(changes, n, chat);
      } else {
        ChangedMembers(AllChanged(changes[..n]), changes[n], chat, "");
      }
    }
  }

  lemma MadeLastSnoc(changes: seq<Change>, chat: string)
    requires changes != []
    ensures var n := |changes| - 1;
            forall i :: MadeLast(changes, i, chat) <==>
              if Makes(changes[n], chat) then i == n else MadeLast(changes[..n], i, chat)
  {
    var n := |changes| - 1;
    forall i
      ensures MadeLast(changes, i, chat) <==>
              if Makes(changes[n], chat) then i == n else MadeLast(changes[..n], i, chat)
    {
      assert 0 <= i < n ==> changes[..n][i] == changes[i];
      if MadeLast(changes[..n], i, chat) && !Makes(changes[n], chat) {
        forall j | i < j < |changes|
          ensures !Makes(changes[j], chat)
        {
          assert j < n ==> changes[..n][j] == changes[j];
        }
      }
      if MadeLast(changes, i, chat) && !Makes(changes[n], chat) {
        assert forall j :: 0 <= j < n ==> changes[..n][j] == changes[j];
      }
    }
  }

  /** A user joined after change `i`. */
  ghost predicate JoinedAfter(changes: seq<Change>, i: int, chat: string, uuid: string) {
    exists j :: 0 <= j < |changes| && i < j && changes[j] == Joined(chat, uuid)
  }

  lemma JoinedAfterSnoc(changes: seq<Change>, i: int, chat: string, uuid: string)
    requires changes != [] && i < |changes| - 1
    ensures var n := |changes| - 1;
            JoinedAfter(changes, i, chat, uuid) <==>
            JoinedAfter(changes[..n], i, chat, uuid) || changes[n] == Joined(chat, uuid)
  {
    var n := |changes| - 1;
    if JoinedAfter(changes[..n], i, chat, uuid) {
      var j :| 0 <= j < n && i < j && changes[..n][j] == Joined(chat, uuid);
      assert changes[j] == Joined(chat, uuid);
    }
    if JoinedAfter(changes, i, chat, uuid) && changes[n] != Joined(chat, uuid) {
      var j :| 0 <= j < |changes| && i < j && changes[j] == Joined(chat, uuid);
      assert changes[..n][j] == Joined(chat, uuid);
    }
  }

  /** The participants of a chat are exactly who made it and who joined it afterwards. */
  lemma {:induction false} MembersExactly(changes: seq<Change>, chat: string, uuid: string)
    ensures uuid in Participants(AllChanged(changes), chat) <==>
            exists i :: MadeLast(changes, i, chat)
                        && (changes[i].creator == uuid || JoinedAfter(changes, i, chat, uuid))
  {
    if changes != [] {
      var n := |changes| - 1;
      MembersExactly(changes[..n], chat, uuid);
      ChatsExactly(changes[..n], chat);
      MadeLastSnoc(changes, chat);
      if Makes(changes[n], chat) {
        assert MadeLast(changes, n, chat) && !JoinedAfter(changes, n, chat, uuid);
      } else {
        forall i | MadeLast(changes[..n], i, chat)
          ensures changes[..n][i] == changes[i]
          ensures JoinedAfter(changes, i, chat, uuid) <==>
                  JoinedAfter(changes[..n], i, chat, uuid) || changes[n] == Joined(chat, uuid)
        {
          JoinedAfterSnoc(changes, i, chat, uuid);
        }
        ChangedMembers(AllChanged(changes[..n]), changes[n], chat, uuid);
      }
    }
  }

  /** One change adds whom it names to an existing chat, and takes nobody out. */
  lemma ChangedMembers(chats: Chats, c: Change, chat: string, uuid: string)
    requires !Makes(c, chat)
    ensures chat in Changed(chats, c) <==> chat in chats
    ensures uuid in Participants(Changed(chats, c), chat) <==>
            uuid in Participants(chats, chat) || (chat in chats && c == Joined(chat, uuid))
  {}

  // ---------------------------------------------------------------- the database

  /** An object id: 24 hexadecimal digits.  The driver throws on any other. */
  predicate IsObjectId(id: string) {
    |id| == 24 && forall i :: 0 <= i < |id| ==> '0' <= id[i] <= '9' || 'a' <= id[i] <= 'f' || 'A' <= id[i] <= 'F'
  }

  const HEX_DIGITS := "0123456789abcdef"

  /** An id of the database as text: two digits for each of its bytes. */
  function Printed(bytes: seq<bv8>): string {
    if bytes == [] then ""
    else [HEX_DIGITS[(bytes[0] >> 4) as nat], HEX_DIGITS[(bytes[0] & 15) as nat]] + Printed(bytes[1..])
  }

  lemma {:induction false} PrintedDigits(bytes: seq<bv8>)
    ensures |Printed(bytes)| == 2 * |bytes|
    ensures forall c :: c in Printed(bytes) ==> c in HEX_DIGITS
  {
    if bytes != [] {
      PrintedDigits(bytes[1..]);
    }
  }

  /** The ids that the database gives, of twelve bytes, are object ids, and so are no ids of another length. */
  lemma PrintedIsObjectId(bytes: seq<bv8>)
    ensures IsObjectId(Printed(bytes)) <==> |bytes| == 12
  {
    PrintedDigits(bytes);
    forall i | 0 <= i < |Printed(bytes)|
      ensures '0' <= Printed(bytes)[i] <= '9' || 'a' <= Printed(bytes)[i] <= 'f'
    {
      assert Printed(bytes)[i] in HEX_DIGITS;
    }
  }

  class ChatStore {
    var chats: Chats

    ghost predicate Valid()
      reads this
    {
      forall chat :: chat in chats ==> Distinct(chats[chat])
    }

    constructor ()
      ensures Valid() && chats == map[]
    {
      chats := map[];
    }

    /** `id` is the id that the database gives the new chat, `valid` says whether the marker's other data can be
        parsed.  Returns the chat's id, empty if there is none. */
    method AddMarker(creator: string, valid: bool, id: string) returns (chat: string)
      requires Valid() && id !in chats && IsObjectId(id)
      modifies this
      ensures Valid()
      ensures chats == if valid then Changed(old(chats), MarkerAdded(creator, id)) else old(chats)
      ensures chat == if creator == "" || !valid then "" else id
      ensures creator != "" && valid ==> chats == old(chats)[id := [creator]]
    {
      if creator == "" || !valid {
        return "";
      }
      chats := chats[id := [creator]];
      return id;
    }

    /** False for an exception. */
    method AddUserToChat(chat: string, uuid: string) returns (returned: bool)
      requires Valid()
      modifies this
      ensures Valid() && (returned <==> IsObjectId(chat))
      ensures chats == if IsObjectId(chat) then Changed(old(chats), Joined(chat, uuid)) else old(chats)
      ensures chats.Keys == old(chats).Keys
      ensures forall c, u :: c in chats ==>
                (u in chats[c] <==> u in old(chats)[c] || (IsObjectId(chat) && c == chat && u == uuid))
    {
      if !IsObjectId(chat) {
        return false;
      }
      if chat in chats && uuid !in chats[chat] {
        chats := chats[chat := chats[chat] + [uuid]];
      }
      return true;
    }

    /** None for an exception. */
    method GetChatParts(chat: string) returns (res: Option<seq<string>>)
      requires Valid()
      ensures res.Some? <==> IsObjectId(chat)
      ensures res.Some? ==> res.value == Participants(chats, chat) && Distinct(res.value)
      ensures res.Some? ==> if chat in chats then res.value == chats[chat] else res.value == []
    {
      if !IsObjectId(chat) {
        return None;
      }
      var parts := [];
      if chat in chats {
        for i := 0 to |chats[chat]|
          invariant parts == chats[chat][..i]
        {
          parts := parts + [chats[chat][i]];
        }
      }
      return Some(parts);
    }
  }

  // ---------------------------------------------------------------- the endpoint

  /** The users are posted to in turn; as none is listed twice, each session gets the event once. */
  method PostToEach(storage: UserStorage, parts: seq<string>, e: Event)
    requires storage.Valid() && Distinct(parts)
    modifies storage.Repr
    ensures storage.Valid() && storage.Repr == old(storage.Repr)
    ensures storage.registry == Posted(old(storage.registry), Members(parts), e)
  {
    ghost var audience := {};
    PostedNone(storage.registry, audience, e);
    for i := 0 to |parts|
      invariant storage.Valid() && storage.Repr == old(storage.Repr)
      invariant audience == Members(parts[..i])
      invariant storage.registry == Posted(old(storage.registry), audience, e)
    {
      PostedNext(old(storage.registry), audience, parts[i], e);
      var any := storage.PostEventToUser(parts[i], e);
      audience := audience + {parts[i]};
    }
    assert parts[..|parts|] == parts;
  }

  /** How a call ends; an exception leaves the handler. */
  datatype Status = OK | CANCELLED | THREW

  class Endpoint {
    const storage: UserStorage
    const db: ChatStore

    constructor (storage: UserStorage, db: ChatStore)
      ensures this.storage == storage && this.db == db
    {
      this.storage, this.db := storage, db;
    }

    /** The event goes to everybody even when the marker was refused. */
    method AddMarker(creator: string, valid: bool, id: string, e: Event) returns (chat: string)
      requires storage.Valid() && db.Valid() && db !in storage.Repr && id !in db.chats && IsObjectId(id)
      modifies db, storage.Repr
      ensures storage.Valid() && db.Valid() && storage.Repr == old(storage.Repr)
      ensures db.chats == if valid then Changed(old(db.chats), MarkerAdded(creator, id)) else old(db.chats)
      ensures storage.registry == Posted(old(storage.registry), old(storage.users).Keys, e)
      ensures chat == if creator == "" || !valid then "" else id
    {
      chat := db.AddMarker(creator, valid, id);
      storage.PostToAllUsers(e);
    }

    /** A token that nobody has joins the empty string to the chat. */
    method JoinChat(token: string, chat: string) returns (status: Status)
      requires storage.Valid() && db.Valid() && db !in storage.Repr
      modifies db
      ensures storage.Valid() && db.Valid()
      ensures status == if IsObjectId(chat) then OK else THREW
      ensures status.THREW? ==> db.chats == old(db.chats)
      ensures status.OK? ==> exists uuid :: IsFirstWith(storage.registry, uuid, token)
                                            && db.chats == Changed(old(db.chats), Joined(chat, uuid))
    {
      var uuid := storage.GetUuidByAccessToken(token);
      var returned := db.AddUserToChat(chat, uuid);
      status := if returned then OK else THREW;
    }

    /** The message goes to the participants; an empty chat id is refused, and one that is no object id makes the
        driver throw, with nothing posted in either case. */
    method SendChatMessage(chat: string, e: Event) returns (status: Status)
      requires storage.Valid() && db.Valid() && db !in storage.Repr
      modifies storage.Repr
      ensures storage.Valid() && storage.Repr == old(storage.Repr)
      ensures status == if chat == "" then CANCELLED else if IsObjectId(chat) then OK else THREW
      ensures !status.OK? ==> storage.registry == old(storage.registry)
      ensures status.OK? ==>
                storage.registry == Posted(old(storage.registry), Members(Participants(db.chats, chat)), e)
    {
      if chat == "" {
        return CANCELLED;
      }
      var parts := db.GetChatParts(chat);
      if parts.None? {
        return THREW;
      }
      PostToEach(storage, parts.value, e);
      return OK;
    }
  }

  /** What a message to a chat does to one session: one SendEvent if its user takes part, none otherwise. */
  lemma MessageReachesParticipantsOnce(requests: seq<Request>, changes: seq<Change>, chat: string, e: Event,
                                       uuid: string, token: string)
    requires HasToken(AllHandled(requests), uuid, token)
    ensures var parts := Participants(AllChanged(changes), chat);
            var before := AllHandled(requests).users[uuid].sessions;
            var after := Posted(AllHandled(requests), Members(parts), e).users[uuid].sessions;
            && token in Table(before) && token in Table(after)
            && Table(after)[token] == if uuid in parts then Sent(Table(before)[token], e) else Table(before)[token]
  {
    var before := AllHandled(requests).users[uuid].sessions;
    TableHas(before, token);
    BroadcastOnTable(before, e);
  }
}
