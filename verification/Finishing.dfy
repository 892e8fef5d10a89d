/** What becomes of a session whose write has failed. */
module Finishing {
  import opened Runs
  import opened SessionTypes
  import opened UserInstanceSteps
  import opened Delivery

  /** Between the store of SHUTDOWN and the return of the logoff callback. */
  predicate Closing(pc: Handler) {
    pc.FinishStored? || pc.LoggingOff?
  }

  ghost predicate SomeoneCloses(s: State) {
    exists h :: h in s.handlers && Closing(s.handlers[h])
  }

  ghost predicate FinishOk(s: State) {
    && (s.erased ==> s.finished && !SomeoneCloses(s))
    && (SomeoneCloses(s) ==> s.finished)
    && (s.finished ==> s.erased || SomeoneCloses(s))
    && (forall h, k :: h in s.handlers && k in s.handlers && Closing(s.handlers[h]) && Closing(s.handlers[k]) ==>
          h == k)
  }

  lemma OthersFinishNothing(s: State, a: Action)
    requires !a.Handle?
    ensures Do(s, a).finished == s.finished && Do(s, a).erased == s.erased
    ensures forall h :: h in Do(s, a).handlers && Closing(Do(s, a).handlers[h]) <==>
                        h in s.handlers && Closing(s.handlers[h])
  {}

  /** What one statement of a handler means for the finish. */
  lemma HandlerFinishes(s: State, h: Tid)
    requires h in s.handlers
    ensures var s', pc := HandlerStep(s, h), s.handlers[h];
            && s'.finished == (s.finished || pc.InFinish?)
            && s'.erased == (s.erased || (pc.LoggingOff? && s.sender.Away?))
            && (h in s'.handlers && Closing(s'.handlers[h]) <==>
                pc.InFinish? || pc.FinishStored? || (pc.LoggingOff? && !s.sender.Away?))
            && (forall k :: k != h ==> (k in s'.handlers <==> k in s.handlers))
            && (forall k :: k != h && k in s.handlers ==> s'.handlers[k] == s.handlers[k])
  {}

  lemma FinishKept(s: State, a: Action)
    requires Inv(s) && FinishOk(s)
    ensures FinishOk(Do(s, a))
  {
    if a.Handle? && a.h in s.handlers {
      HandlerFinishes(s, a.h);
      var t :| Good(s, t);
      if s.handlers[a.h].InFinish? {
        assert Entitled(s.handlers[a.h]) && !s.finished;
      }
      if SomeoneCloses(s) && !SomeoneCloses(Do(s, a)) {
        var k :| k in s.handlers && Closing(s.handlers[k]);
        assert k == a.h;
      }
      assert a.h in Do(s, a).handlers && Closing(Do(s, a).handlers[a.h]) ==> SomeoneCloses(Do(s, a));
    } else if !a.Handle? {
      OthersFinishNothing(s, a);
    }
  }

  lemma {:induction false} AlwaysFinishes(acts: seq<Action>)
    ensures FinishOk(Reached(acts))
    decreases |acts|
  {
    if acts != [] {
      AlwaysFinishes(acts[..|acts| - 1]);
      AlwaysInv(acts[..|acts| - 1]);
      FinishKept(Reached(acts[..|acts| - 1]), acts[|acts| - 1]);
    }
  }

  /** A session is erased exactly when `OnFinished` has stored SHUTDOWN and its logoff callback has returned: the
      callback is called after every failure, once, and after nothing else. */
  lemma ErasedExactlyAfterCallback(acts: seq<Action>)
    ensures Reached(acts).erased <==> Reached(acts).finished && !SomeoneCloses(Reached(acts))
    ensures SomeoneCloses(Reached(acts)) ==> Reached(acts).finished
  {
    AlwaysFinishes(acts);
  }

  /** A callback does not wait for ever: as soon as no sender holds the instances mutex it erases the session. */
  lemma CallbackErases(acts: seq<Action>, h: Tid)
    requires var s := Reached(acts); h in s.handlers && s.handlers[h].LoggingOff? && s.sender.Away?
    ensures Reached(acts + [Handle(h)]).erased && h !in Reached(acts + [Handle(h)]).handlers
  {
    Snoc(Do, FRESH, acts, Handle(h));
  }
}
