/** Schedules that show what a session does not guarantee. */
module Schedules {
  import opened Runs
  import opened SessionTypes
  import opened UserInstanceSteps

  /** `acts` leads to `s`; taking `a` next leads to the result. */
  lemma Then(acts: seq<Action>, s: State, a: Action) returns (next: seq<Action>, s': State)
    requires Reached(acts) == s
    ensures next == acts + [a] && s' == Do(s, a) && Reached(next) == s'
  {
    Snoc(Do, FRESH, acts, a);
    next, s' := acts + [a], Do(s, a);
  }

  /** A first event is on the wire. */
  lemma FirstSent(e: Event) returns (acts: seq<Action>, s: State)
    ensures Reached(acts) == s
    ensures s == FRESH.(flag := WRITING, sent := [e], written := [Item(0, e)], inFlight := 1)
  {
    acts, s := [], FRESH;
    acts, s := Then(acts, s, Enter(e));
    acts, s := Then(acts, s, Send);
    acts, s := Then(acts, s, Send);
    acts, s := Then(acts, s, Send);
  }

  /** A first event is written and its completion has loaded the state. */
  lemma FirstWritten(e: Event) returns (acts: seq<Action>, s: State)
    ensures Reached(acts) == s
    ensures s == FRESH.(flag := WRITING, sent := [e], written := [Item(0, e)], handlers := map[0 := Passed])
  {
    acts, s := FirstSent(e);
    acts, s := Then(acts, s, Complete(0, true));
    acts, s := Then(acts, s, Handle(0));
  }

  /** The completion's critical section falls between the second send's exchange and its push. */
  lemma Straddled(e: Event, f: Event) returns (acts: seq<Action>, s: State)
    ensures Reached(acts) == s
    ensures s == FRESH.(sent := [e, f], written := [Item(0, e)], strands := 1, sender := ToPush(Item(1, f)))
  {
    acts, s := FirstWritten(e);
    acts, s := Then(acts, s, Enter(f));
    acts, s := Then(acts, s, Send);
    acts, s := Then(acts, s, Send);
    acts, s := Then(acts, s, Handle(0));
    acts, s := Then(acts, s, Handle(0));
    acts, s := Then(acts, s, Handle(0));
    assert s.handlers == map[];
  }

  /** A stranded event: nobody is active, nothing is in flight, the state is IDLE, and the second event
      stays in the queue until somebody sends again. */
  lemma Stranded(e: Event, f: Event) returns (acts: seq<Action>, s: State)
    ensures Reached(acts) == s
    ensures s == FRESH.(sent := [e, f], written := [Item(0, e)], strands := 1, queue := [Item(1, f)])
    ensures s.flag == IDLE && s.sender.Away? && s.inFlight == 0 && s.handlers == map[]
    ensures forall a: Action :: !a.Enter? ==> Do(s, a) == s
  {
    acts, s := Straddled(e, f);
    acts, s := Then(acts, s, Send);
    acts, s := Then(acts, s, Send);
    acts, s := Then(acts, s, Send);
  }

  /** Exact first-in-first-out is false: the third event is written before the second. */
  lemma FifoFails(e: Event, f: Event, g: Event) returns (acts: seq<Action>, s: State)
    ensures Reached(acts) == s
    ensures s.sent == [e, f, g] && s.written == [Item(0, e), Item(2, g)] && s.queue == [Item(1, f)]
    ensures s.overtakes == 1 && !InOrder(Line(s))
  {
    acts, s := Stranded(e, f);
    acts, s := Then(acts, s, Enter(g));
    acts, s := Then(acts, s, Send);
    acts, s := Then(acts, s, Send);
    acts, s := Then(acts, s, Send);
    assert Line(s)[1] == Item(2, g);
  }

  /** SHUTDOWN is not absorbing: a sender that has loaded the state before `OnFinished` runs overwrites it. */
  lemma ShutdownOverwritten(e: Event, f: Event) returns (acts: seq<Action>, s: State)
    ensures Reached(acts) == s
    ensures s.finished && s.flag == WRITING && s.written == [Item(0, e)] && s.inFlight == 0
  {
    acts, s := FirstSent(e);
    acts, s := Then(acts, s, Enter(f));
    acts, s := Then(acts, s, Send);
    acts, s := FailsNow(acts, s);
    acts, s := Then(acts, s, Send);
  }

  /** The outstanding write fails, and SHUTDOWN is stored. */
  lemma FailsNow(acts: seq<Action>, s: State) returns (next: seq<Action>, s': State)
    requires Reached(acts) == s && s.inFlight == 1 && s.handlers == map[] && s.mutex.Free?
    ensures Reached(next) == s'
    ensures s' == s.(inFlight := 0, mutex := ByHandler(0), handlers := map[0 := FinishStored], flag := SHUTDOWN,
                     finished := true)
  {
    next, s' := Then(acts, s, Complete(0, false));
    next, s' := Then(next, s', Handle(0));
    assert s'.handlers == map[0 := InFinish];
    next, s' := Then(next, s', Handle(0));
    assert s'.handlers == map[0 := FinishStored];
  }
}
