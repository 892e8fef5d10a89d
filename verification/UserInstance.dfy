/** `UserInstance` with each method as one atomic step: what the methods do to the fields, and what the
    fields then mean.  `Uninterrupted.AtomicSteps` ties them to the machine of `UserInstanceSteps`. */
module UserInstances {
  import opened SessionTypes

  /** What `CommonCallData` owns: the subscription's stream, with what was handed to `Write` so far. */
  datatype Stream = Stream(id: nat, appId: string, written: seq<Event>)

  /** A session's value. */
  datatype Session = Session(stream: Stream, token: string, flag: Flag, events: seq<Event>, onLogoff: bool)

  function Attached(stream: Stream, token: string): Session {
    Session(stream, token, IDLE, [], true)
  }

  function Wrote(x: Session, e: Event): Session {
    x.(flag := WRITING, stream := x.stream.(written := x.stream.written + [e]))
  }

  /** After `SendEvent(e)`. */
  function Sent(x: Session, e: Event): Session {
    if x.flag == SHUTDOWN then x
    else if x.flag == IDLE then Wrote(x, e)
    else x.(flag := WRITING, events := x.events + [e])
  }

  /** After a successful completion. */
  function Completed(x: Session): Session {
    if x.flag == SHUTDOWN then x
    else if x.events == [] then x.(flag := IDLE)
    else Wrote(x, x.events[0]).(events := x.events[1..])
  }

  /** Between methods, IDLE is stored over an empty queue only. */
  predicate Settled(x: Session) {
    x.flag == IDLE ==> x.events == []
  }

  /** Everything sent to the session and not refused, in the order of the stream. */
  function Line(x: Session): seq<Event> {
    x.stream.written + x.events
  }

  class UserInstance {
    var data: Option<Stream>
    var flag: Flag
    var accessToken: string
    var events: seq<Event>
    var onLogoff: bool

    predicate Valid()
      reads this
    {
      data.Some?
    }

    function Value(): Session
      requires Valid()
      reads this
    {
      Session(data.value, accessToken, flag, events, onLogoff)
    }

    constructor (stream: Stream, token: string)
      ensures Valid() && Value() == Attached(stream, token).(onLogoff := false)
    {
      data, flag, accessToken, events, onLogoff := Some(stream), IDLE, token, [], false;
    }

    method ConnectToInstanceLogoff()
      requires Valid()
      modifies this`onLogoff
      ensures Valid() && Value() == old(Value()).(onLogoff := true)
    {
      onLogoff := true;
    }

    /** Move assignment; the source is left without a stream and with an empty queue. */
    method MoveFrom(r: UserInstance)
      requires this != r && r.Valid()
      modifies this, r
      ensures Valid() && Value() == old(r.Value())
      ensures r.data.None? && r.events == []
    {
      data, r.data := r.data, None;
      flag := r.flag;
      events, r.events := r.events, [];
      accessToken, r.accessToken := r.accessToken, "";
      onLogoff, r.onLogoff := r.onLogoff, false;
    }

    /** The one outstanding write: nobody else may write. */
    method Write(e: Event)
      requires Valid()
      modifies this`data
      ensures Valid() && data.value == old(data.value).(written := old(data.value).written + [e])
    {
      data := Some(data.value.(written := data.value.written + [e]));
    }

    method SendEvent(e: Event)
      requires Valid()
      modifies this
      ensures Valid() && Value() == Sent(old(Value()), e)
      ensures old(Settled(Value())) ==> Settled(Value())
      ensures old(Settled(Value())) ==>
                Line(Value()) == old(Line(Value())) + (if old(flag) == SHUTDOWN then [] else [e])
    {
      if flag == SHUTDOWN {
        return;
      }
      var before := flag;
      flag := WRITING;
      if before == IDLE {
        Write(e);
      } else {
        events := events + [e];
      }
    }

    /** A successful write has completed. */
    method OnAsyncEventFinished()
      requires Valid()
      modifies this
      ensures Valid() && Value() == Completed(old(Value()))
      ensures old(Settled(Value())) ==> Settled(Value())
      ensures Line(Value()) == old(Line(Value()))
    {
      if flag == SHUTDOWN {
        return;
      }
      if events == [] {
        flag := IDLE;
      } else {
        var event := events[0];
        events := events[1..];
        flag := WRITING;
        Write(event);
      }
    }

    /** A write has failed.  Returns the token for the logoff callback, if there is one to call. */
    method OnFinished() returns (logoff: Option<string>)
      requires Valid()
      modifies this`flag
      ensures Valid() && Value() == old(Value()).(flag := SHUTDOWN)
      ensures logoff == if onLogoff then Some(accessToken) else None
    {
      flag := SHUTDOWN;
      logoff := if onLogoff then Some(accessToken) else None;
    }
  }

  // ---------------------------------------------------------------- one method at a time, FIFO is exact

  /** What happens to a session: an event is sent, its write succeeds, its write fails. */
  datatype Happening = Send(e: Event) | Success | Failure

  function After(x: Session, one: Happening): Session {
    match one
    case Send(e) => Sent(x, e)
    case Success => Completed(x)
    case Failure => x.(flag := SHUTDOWN)
  }

  function AfterAll(x: Session, history: seq<Happening>): Session {
    if history == [] then x else After(AfterAll(x, history[..|history| - 1]), history[|history| - 1])
  }

  /** The events sent before the first failure. */
  function Accepted(history: seq<Happening>): seq<Event> {
    if history == [] then []
    else
      var before := Accepted(history[..|history| - 1]);
      if history[|history| - 1].Send? && Failure !in history then before + [history[|history| - 1].e] else before
  }

  lemma {:induction false} ShutdownExactlyAfterFailure(stream: Stream, token: string, history: seq<Happening>)
    ensures AfterAll(Attached(stream, token), history).flag == SHUTDOWN <==> Failure in history
  {
    if history != [] {
      var n := |history| - 1;
      ShutdownExactlyAfterFailure(stream, token, history[..n]);
      assert history == history[..n] + [history[n]];
    }
  }

  /** If methods did not interleave, delivery would be exactly first in, first out, with nothing left in the
      queue of an idle session: written, then queued, is what was sent before the first failure. */
  lemma {:induction false} AtomicFifo(stream: Stream, token: string, history: seq<Happening>)
    ensures var x := AfterAll(Attached(stream, token), history);
            Settled(x) && Line(x) == stream.written + Accepted(history)
  {
    if history != [] {
      var n := |history| - 1;
      AtomicFifo(stream, token, history[..n]);
      ShutdownExactlyAfterFailure(stream, token, history[..n]);
      assert history == history[..n] + [history[n]];
      var before := AfterAll(Attached(stream, token), history[..n]);
      if history[n].Success? && before.events != [] {
        assert before.events == [before.events[0]] + before.events[1..];
      }
      if history[n].Send? && before.flag != SHUTDOWN {
        SentAtTheEnd(before, history[n].e);
        assert stream.written + (Accepted(history[..n]) + [history[n].e]) == Line(before) + [history[n].e];
      }
    }
  }

  lemma SentAtTheEnd(x: Session, e: Event)
    requires Settled(x) && x.flag != SHUTDOWN
    ensures Line(Sent(x, e)) == Line(x) + [e]
  {}
}
