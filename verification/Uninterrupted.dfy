/** The class `UserInstances.UserInstance` is the machine of `UserInstanceSteps` when no method is
    interrupted: what a method does to the fields is what its statements do in the machine, and every
    history of uninterrupted methods is one of the machine's runs. */
module Uninterrupted {
  import opened Runs
  import opened SessionTypes
  import opened UserInstanceSteps
  import Atomic = UserInstances

  /** Between methods, the machine is in the state that the session's value describes. */
  ghost predicate Shows(s: State, x: Atomic.Session) {
    && s.flag == x.flag && EventsOf(s.queue) == x.events && EventsOf(s.written) == x.stream.written
    && s.sender.Away? && s.mutex.Free?
    && s.inFlight == (if x.flag == WRITING then 1 else 0)
    && s.handlers == map[] && (s.erased <==> x.flag == SHUTDOWN)
  }

  /** Before its callback has erased it, a session that is shut down refuses an event at its load. */
  lemma LoadRefuses(s: State, e: Event)
    requires s.flag == SHUTDOWN && s.sender.Away? && !s.erased
    ensures After(Do, s, [Enter(e), Send]) == s
    ensures Do(s, Enter(e)).sender == Entered(e)
  {
    Path(Do, [s, s.(sender := Entered(e)), s], [Enter(e), Send]);
  }

  /** Afterwards nobody can send to it. */
  lemma RefusedSend(s: State, x: Atomic.Session, e: Event) returns (acts: seq<Action>)
    requires Shows(s, x) && x.flag == SHUTDOWN
    ensures Shows(After(Do, s, acts), Atomic.Sent(x, e))
  {
    acts := [Enter(e)];
    Path(Do, [s, s], acts);
  }

  lemma AcceptedSend(s: State, x: Atomic.Session, e: Event) returns (acts: seq<Action>)
    requires Shows(s, x) && x.flag != SHUTDOWN
    ensures Shows(After(Do, s, acts), Atomic.Sent(x, e))
  {
    var item := Item(|s.sent|, e);
    var s1, s2 := s.(sender := Entered(e)), s.(sender := Loaded(e));
    var s3 := SenderStep(s2);
    if x.flag == IDLE {
      acts := [Enter(e), Send, Send, Send];
      var s4 := s3.(written := s.written + [item], inFlight := 1, sender := Away);
      Path(Do, [s, s1, s2, s3, s4], acts);
      assert EventsOf(s4.written) == EventsOf(s.written) + [e];
    } else {
      acts := [Enter(e), Send, Send, Send, Send, Send];
      var s4 := s3.(mutex := BySender, sender := InPush(item));
      var s5 := s4.(queue := s.queue + [item], sender := Pushed);
      var s6 := s5.(mutex := Free, sender := Away);
      Path(Do, [s, s1, s2, s3, s4, s5, s6], acts);
      assert EventsOf(s6.queue) == EventsOf(s.queue) + [e];
    }
  }

  lemma Completes(s: State, ok: bool)
    requires s.inFlight > 0 && s.handlers == map[]
    ensures Do(s, Complete(0, ok)) ==
            s.(inFlight := s.inFlight - 1, handlers := map[0 := if ok then Succeeded else Failed])
  {}

  /** The only handler's next statement. */
  lemma OneStatement(s: State, pc: Handler)
    requires s.handlers == map[0 := pc]
    ensures Do(s, Handle(0)) == HandlerEffect(s, 0).(handlers :=
              if NextPc(s, pc).Returned? then map[] else map[0 := NextPc(s, pc)])
  {
    assert s.handlers - {0} == map[];
    assert forall next :: s.handlers[0 := next] == map[0 := next];
  }

  function InMutex(s: State): State {
    s.(inFlight := 0, handlers := map[0 := InLock], mutex := ByHandler(0))
  }

  lemma ReachesMutex(s: State, x: Atomic.Session) returns (acts: seq<Action>)
    requires Shows(s, x) && x.flag == WRITING
    ensures After(Do, s, acts) == InMutex(s)
  {
    acts := [Complete(0, true), Handle(0), Handle(0)];
    var s0 := s.(inFlight := 0, handlers := map[0 := Succeeded]);
    var s1 := s0.(handlers := map[0 := Passed]);
    Completes(s, true);
    OneStatement(s0, Succeeded);
    OneStatement(s1, Passed);
    Path(Do, [s, s0, s1, InMutex(s)], acts);
  }

  lemma RestingSuccess(s: State, x: Atomic.Session) returns (acts: seq<Action>)
    requires Shows(s, x) && x.flag == WRITING && x.events == []
    ensures Shows(After(Do, InMutex(s), acts), Atomic.Completed(x))
  {
    acts := [Handle(0), Handle(0)];
    var s2 := InMutex(s);
    var s3 := s2.(handlers := map[0 := Leaving], flag := IDLE);
    assert |EventsOf(s.queue)| == 0;
    OneStatement(s2, InLock);
    OneStatement(s3, Leaving);
    Path(Do, [s2, s3, s3.(handlers := map[], mutex := Free)], acts);
  }

  lemma WritingSuccess(s: State, x: Atomic.Session) returns (acts: seq<Action>)
    requires Shows(s, x) && x.flag == WRITING && x.events != []
    ensures Shows(After(Do, InMutex(s), acts), Atomic.Completed(x))
  {
    acts := [Handle(0), Handle(0), Handle(0), Handle(0)];
    assert |EventsOf(s.queue)| > 0;
    var item := s.queue[0];
    var s2 := InMutex(s);
    var s3 := s2.(handlers := map[0 := Popped(item)], queue := s.queue[1..]);
    var s4 := s3.(handlers := map[0 := Stored(item)]);
    var s5 := s4.(handlers := map[0 := Leaving], written := s.written + [item], inFlight := 1);
    OneStatement(s2, InLock);
    OneStatement(s3, Popped(item));
    OneStatement(s4, Stored(item));
    OneStatement(s5, Leaving);
    Path(Do, [s2, s3, s4, s5, s5.(handlers := map[], mutex := Free)], acts);
    EventsMove(s);
  }

  lemma EventsMove(s: State)
    requires s.queue != []
    ensures EventsOf(s.queue[1..]) == EventsOf(s.queue)[1..]
    ensures EventsOf(s.written + [s.queue[0]]) == EventsOf(s.written) + [EventsOf(s.queue)[0]]
  {}

  lemma Failing(s: State, x: Atomic.Session) returns (acts: seq<Action>)
    requires Shows(s, x) && x.flag == WRITING
    ensures Shows(After(Do, s, acts), x.(flag := SHUTDOWN))
  {
    acts := [Complete(0, false), Handle(0), Handle(0), Handle(0), Handle(0)];
    var s0 := s.(inFlight := 0, handlers := map[0 := Failed]);
    var s1 := s0.(handlers := map[0 := InFinish], mutex := ByHandler(0));
    var s2 := s1.(handlers := map[0 := FinishStored], flag := SHUTDOWN, finished := true);
    Completes(s, false);
    OneStatement(s0, Failed);
    OneStatement(s1, InFinish);
    OneStatement(s2, FinishStored);
    var s3 := s2.(handlers := map[0 := LoggingOff], mutex := Free);
    OneStatement(s3, LoggingOff);
    Path(Do, [s, s0, s1, s2, s3, s3.(handlers := map[], erased := true)], acts);
  }

  /** A happening is one of the machine's runs. */
  lemma OneHappening(s: State, x: Atomic.Session, one: Atomic.Happening) returns (acts: seq<Action>)
    requires Shows(s, x) && (one.Send? || x.flag == WRITING)
    ensures Shows(After(Do, s, acts), Atomic.After(x, one))
  {
    match one
    case Send(e) =>
      if x.flag == SHUTDOWN {
        acts := RefusedSend(s, x, e);
      } else {
        acts := AcceptedSend(s, x, e);
      }
    case Success =>
      var first := ReachesMutex(s, x);
      var last: seq<Action>;
      if x.events == [] {
        last := RestingSuccess(s, x);
      } else {
        last := WritingSuccess(s, x);
      }
      Concat(Do, s, first, last);
      acts := first + last;
    case Failure =>
      acts := Failing(s, x);
  }

  /** Writes complete only while one is outstanding. */
  ghost predicate Plausible(x: Atomic.Session, history: seq<Atomic.Happening>) {
    forall i :: 0 <= i < |history| ==> history[i].Send? || Atomic.AfterAll(x, history[..i]).flag == WRITING
  }

  /** Every history of uninterrupted methods is one of the machine's runs. */
  lemma {:induction false} AtomicSteps(stream: Atomic.Stream, token: string, history: seq<Atomic.Happening>)
    returns (acts: seq<Action>)
    requires stream.written == [] && Plausible(Atomic.Attached(stream, token), history)
    ensures Shows(Reached(acts), Atomic.AfterAll(Atomic.Attached(stream, token), history))
  {
    if history == [] {
      acts := [];
    } else {
      var n := |history| - 1;
      var x := Atomic.Attached(stream, token);
      forall i | 0 <= i < n
        ensures history[..n][i].Send? || Atomic.AfterAll(x, history[..n][..i]).flag == WRITING
      {
        assert history[..n][..i] == history[..i];
      }
      var first := AtomicSteps(stream, token, history[..n]);
      var last := OneHappening(Reached(first), Atomic.AfterAll(x, history[..n]), history[n]);
      Concat(Do, FRESH, first, last);
      acts := first + last;
    }
  }
}
