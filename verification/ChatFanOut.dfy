/** A chat message among other requests: its posts, one for each participant, are entries of the log with
    anything in between. */
module ChatFanOut {
  import opened RegistrySteps
  import opened FanOut
  import Chats

  /** `at` are the log positions of the posts of one message to these participants. */
  ghost predicate MessageAt(log: seq<Audience>, parts: seq<string>, at: seq<nat>) {
    && |at| == |parts|
    && (forall i, j :: 0 <= i < j < |at| ==> at[i] < at[j])
    && (forall i :: 0 <= i < |at| ==> at[i] < |log| && log[at[i]] == OneUser(parts[i]))
  }

  /** A session attached before the message and still live after it was sent it once if its user takes
      part, and not at all otherwise. */
  lemma MessageOnceAmongOthers(acts: seq<Action>, changes: seq<Chats.Change>, chat: string, at: seq<nat>,
                               uuid: Uuid, token: Token)
    returns (calls: set<nat>)
    requires var s := Reached(acts);
             && s.storage.Free? && Attached(s, uuid, token)
             && MessageAt(s.log, Chats.Participants(Chats.AllChanged(changes), chat), at)
             && forall i :: 0 <= i < |at| ==> s.users[uuid].sessions[token].since <= at[i]
    ensures var session := Reached(acts).users[uuid].sessions[token];
            forall k :: k in calls <==> 0 <= k < |session.received| && session.received[k] in at
    ensures |calls| == if uuid in Chats.Participants(Chats.AllChanged(changes), chat) then 1 else 0
  {
    var s := Reached(acts);
    var session := s.users[uuid].sessions[token];
    var parts := Chats.Participants(Chats.AllChanged(changes), chat);
    LiveSessionsSeeTheLog(acts, uuid, token);
    HitsBetweenMeans(s.log, uuid, token, session.since, |s.log|);
    Chats.ParticipantsDistinct(changes, chat);
    calls := OneOfThem(s.log, session.received, parts, at, session.since, uuid, token);
  }

  lemma OneOfThem(log: seq<Audience>, received: seq<nat>, parts: seq<string>, at: seq<nat>, since: nat,
                  uuid: Uuid, token: Token)
    returns (calls: set<nat>)
    requires Chats.Distinct(parts) && MessageAt(log, parts, at) && forall i :: 0 <= i < |at| ==> since <= at[i]
    requires forall i: nat :: i in received <==> since <= i < |log| && Hits(log[i], uuid, token)
    requires forall i, j :: 0 <= i < j < |received| ==> received[i] < received[j]
    ensures forall k :: k in calls <==> 0 <= k < |received| && received[k] in at
    ensures |calls| == if uuid in parts then 1 else 0
  {
    if i :| 0 <= i < |parts| && parts[i] == uuid {
      assert log[at[i]] == OneUser(uuid) && at[i] in received;
      var k :| 0 <= k < |received| && received[k] == at[i];
      calls := {k};
      forall l | 0 <= l < |received| && received[l] in at
        ensures l == k
      {
        var j :| 0 <= j < |at| && at[j] == received[l];
        assert received[l] in received && parts[j] == uuid;
      }
    } else {
      calls := {};
      forall l | 0 <= l < |received|
        ensures received[l] !in at
      {
        assert received[l] in received;
      }
    }
  }
}
