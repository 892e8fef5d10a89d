/** When nobody sends and every write succeeds, completions drain a session under every schedule. */
module Draining {
  import opened Runs
  import opened SessionTypes
  import opened UserInstanceSteps
  import opened Delivery
  import opened SessionTheorems

  /** Inside `OnAsyncEventFinished`. */
  predicate Succeeding(pc: Handler) {
    pc.Succeeded? || pc.Passed? || pc.InLock? || pc.Popped? || pc.Stored? || pc.Leaving?
  }

  /** No sender, no failure, and IDLE only over an empty queue. */
  ghost predicate Calm(s: State, t: Token) {
    && TokenOk(s, t)
    && s.sender.Away? && !s.finished
    && (forall h :: h in s.handlers ==> Succeeding(s.handlers[h]))
    && (s.flag == IDLE ==> s.queue == [])
  }

  /** A successful completion, or the next statement of a completion thread. */
  predicate Settling(a: Action) {
    a.Handle? || (a.Complete? && a.ok)
  }

  /** No settling action can do anything. */
  ghost predicate Stuck(s: State) {
    forall a :: Settling(a) ==> Do(s, a) == s
  }

  /** How many completions are still to come. */
  ghost function CompletionsLeft(s: State, t: Token): nat {
    |s.queue| + |Carried(s)| + (if t.OnWire? then 1 else 0)
  }

  /** How many statements and completions are still to come, at most. */
  ghost function WorkLeft(s: State, t: Token): nat
    requires t.WithHandler? ==> t.h in s.handlers
  {
    9 * |s.queue| + |s.handlers| +
    match t
    case OnWire => 8
    case WithHandler(h) =>
      (match s.handlers[h]
       case Succeeded => 6
       case Passed => 5
       case InLock => 4
       case Popped(_) => 11
       case Stored(_) => 10
       case _ => 0)
    case _ => 0
  }

  lemma HandlerCount(s: State, h: Tid)
    requires h in s.handlers
    ensures |HandlerStep(s, h).handlers| == |s.handlers| - (if NextPc(s, s.handlers[h]).Returned? then 1 else 0)
  {
    var pc := NextPc(s, s.handlers[h]);
    if pc.Returned? {
      assert At(s, h, pc).Keys == s.handlers.Keys - {h};
    } else {
      assert At(s, h, pc).Keys == s.handlers.Keys;
    }
  }

  lemma HandleStaysCalm(s: State, t: Token, h: Tid)
    requires Calm(s, t) && h in s.handlers
    ensures Calm(HandlerStep(s, h), Moved(s, t, Handle(h)))
  {
    var s' := HandlerStep(s, h);
    HandleKeepsToken(s, t, h);
    assert Entitled(s.handlers[h]) ==> t == WithHandler(h);
    forall k | k in s'.handlers
      ensures Succeeding(s'.handlers[k])
    {
      if k != h {
        OthersUntouched(s, h, k);
      }
    }
  }

  lemma HandleKeepsLine(s: State, t: Token, h: Tid)
    requires TokenOk(s, t) && h in s.handlers && s.sender.Away?
    ensures Line(HandlerStep(s, h)) == Line(s)
  {
    HandleMovesView(s, t, h);
    CarriedIs(s, t);
    assert Entitled(s.handlers[h]) ==> t == WithHandler(h);
    assert Handled(ViewOf(s), s.handlers[h]).Line() == ViewOf(s).Line();
  }

  lemma HolderUsesWork(s: State, h: Tid)
    requires Calm(s, WithHandler(h)) && h in s.handlers && Entitled(s.handlers[h]) && HandlerStep(s, h) != s
    ensures var s', t' := HandlerStep(s, h), Moved(s, WithHandler(h), Handle(h));
            && (t'.WithHandler? ==> t'.h in s'.handlers)
            && WorkLeft(s', t') < WorkLeft(s, WithHandler(h))
  {
    HandlerCount(s, h);
    assert s.handlers[h := s.handlers[h]] == s.handlers;
  }

  lemma LeaverUsesWork(s: State, t: Token, h: Tid)
    requires Calm(s, t) && h in s.handlers && !Entitled(s.handlers[h])
    ensures var s', t' := HandlerStep(s, h), Moved(s, t, Handle(h));
            && (t'.WithHandler? ==> t'.h in s'.handlers)
            && WorkLeft(s', t') < WorkLeft(s, t)
  {
    HandlerCount(s, h);
    assert t.WithHandler? ==> t.h != h && HandlerStep(s, h).handlers[t.h] == s.handlers[t.h];
  }

  lemma HandleKeepsCompletions(s: State, t: Token, h: Tid)
    requires Calm(s, t) && h in s.handlers
    ensures CompletionsLeft(HandlerStep(s, h), Moved(s, t, Handle(h))) == CompletionsLeft(s, t)
  {
    HandleMovesView(s, t, h);
    CarriedIs(s, t);
    assert Entitled(s.handlers[h]) ==> t == WithHandler(h);
    assert ViewOf(HandlerStep(s, h)).hand == Carried(HandlerStep(s, h));
  }

  lemma HandleDrains(s: State, t: Token, h: Tid)
    requires Calm(s, t) && h in s.handlers && HandlerStep(s, h) != s
    ensures var s', t' := HandlerStep(s, h), Moved(s, t, Handle(h));
            && Calm(s', t') && Line(s') == Line(s) && s'.sent == s.sent
            && WorkLeft(s', t') < WorkLeft(s, t)
            && CompletionsLeft(s', t') == CompletionsLeft(s, t)
  {
    HandleStaysCalm(s, t, h);
    HandleKeepsLine(s, t, h);
    HandleKeepsCompletions(s, t, h);
    if Entitled(s.handlers[h]) {
      assert t == WithHandler(h);
      HolderUsesWork(s, h);
    } else {
      LeaverUsesWork(s, t, h);
    }
  }

  lemma CompleteDrains(s: State, t: Token, h: Tid)
    requires Calm(s, t) && Do(s, Complete(h, true)) != s
    ensures var s', t' := Do(s, Complete(h, true)), WithHandler(h);
            && Calm(s', t') && Line(s') == Line(s) && s'.sent == s.sent
            && WorkLeft(s', t') < WorkLeft(s, t)
            && CompletionsLeft(s', t') == CompletionsLeft(s, t) - 1
  {
    var s', t' := Do(s, Complete(h, true)), WithHandler(h);
    OtherKeepsView(s, t, Complete(h, true));
    assert ViewOf(s').hand == ViewOf(s).hand;
    assert s'.handlers.Keys == s.handlers.Keys + {h};
  }

  /** Completions that take effect in a schedule. */
  ghost function Completions(s: State, acts: seq<Action>): nat {
    if acts == [] then 0
    else
      var before := After(Do, s, acts[..|acts| - 1]);
      Completions(s, acts[..|acts| - 1])
      + (if acts[|acts| - 1].Complete? && Do(before, acts[|acts| - 1]) != before then 1 else 0)
  }

  /** Actions that take effect in a schedule. */
  ghost function Effective(s: State, acts: seq<Action>): nat {
    if acts == [] then 0
    else
      var before := After(Do, s, acts[..|acts| - 1]);
      Effective(s, acts[..|acts| - 1]) + (if Do(before, acts[|acts| - 1]) != before then 1 else 0)
  }

  /** Along every settling schedule the line never changes, every effective action uses up work, and
      every completion delivered is one of those foreseen. */
  lemma {:induction false} EverySchedule(s: State, t: Token, acts: seq<Action>) returns (t': Token)
    requires Calm(s, t) && Only(Settling, acts)
    ensures var s' := After(Do, s, acts);
            && Calm(s', t') && Line(s') == Line(s) && s'.sent == s.sent
            && WorkLeft(s', t') + Effective(s, acts) <= WorkLeft(s, t)
            && CompletionsLeft(s', t') + Completions(s, acts) == CompletionsLeft(s, t)
    decreases |acts|
  {
    t' := t;
    if acts != [] {
      var n := |acts| - 1;
      t' := EverySchedule(s, t, acts[..n]);
      var before := After(Do, s, acts[..n]);
      var a := acts[n];
      if Do(before, a) != before {
        if a.Handle? {
          HandleDrains(before, t', a.h);
          t' := Moved(before, t', a);
        } else {
          CompleteDrains(before, t', a.h);
          t' := WithHandler(a.h);
        }
      }
    }
  }

  /** A completion thread that is inside its routine can move, or the one that holds m_mtx can. */
  lemma SomeoneMoves(s: State, t: Token, h: Tid) returns (k: Tid)
    requires Calm(s, t) && h in s.handlers
    ensures Settling(Handle(k)) && Do(s, Handle(k)) != s
  {
    k := if s.mutex.ByHandler? then s.mutex.h else h;
    assert s.handlers[k] != NextPc(s, s.handlers[k]);
    assert HandlerStep(s, k).handlers != s.handlers by {
      assert k in HandlerStep(s, k).handlers ==> HandlerStep(s, k).handlers[k] == NextPc(s, s.handlers[k]);
    }
  }

  lemma OutcomeArrives(s: State) returns (h: Tid)
    requires s.inFlight > 0
    ensures Settling(Complete(h, true)) && Do(s, Complete(h, true)) != s
  {
    h := FreshNumber(s.handlers.Keys);
  }

  /** Where no settling action can do anything, the session is at rest with everything written. */
  lemma StuckIsDrained(s: State, t: Token)
    requires Calm(s, t)
    requires Stuck(s)
    ensures s.flag == IDLE && s.queue == [] && s.inFlight == 0 && s.handlers == map[]
    ensures s.written == Line(s) && CompletionsLeft(s, t) == 0
  {
    CarriedIs(s, t);
    if h :| h in s.handlers {
      var k := SomeoneMoves(s, t, h);
      assert false;
    }
    if s.inFlight > 0 {
      var h := OutcomeArrives(s);
      assert false;
    }
    assert t.Resting?;
    assert Line(s) == s.written;
  }

  lemma SettlingDrains(s: State, t: Token, a: Action)
    requires Calm(s, t) && Settling(a) && Do(s, a) != s
    ensures Calm(Do(s, a), Moved(s, t, a)) && WorkLeft(Do(s, a), Moved(s, t, a)) < WorkLeft(s, t)
  {
    if a.Handle? {
      HandleDrains(s, t, a.h);
    } else {
      CompleteDrains(s, t, a.h);
    }
  }

  lemma Prepended(s: State, a: Action, rest: seq<Action>) returns (more: seq<Action>)
    requires Settling(a) && Only(Settling, rest) && Stuck(After(Do, Do(s, a), rest))
    ensures Only(Settling, more) && Stuck(After(Do, s, more)) && |more| == |rest| + 1
  {
    Cons(Do, s, a, rest);
    more := [a] + rest;
  }

  /** Such a schedule always exists: keep taking any action that does something. */
  lemma {:induction false} CanDrain(s: State, t: Token) returns (more: seq<Action>)
    requires Calm(s, t)
    ensures Only(Settling, more) && Stuck(After(Do, s, more)) && |more| <= WorkLeft(s, t)
    decreases WorkLeft(s, t)
  {
    more := [];
    if !Stuck(s) {
      var a :| Settling(a) && Do(s, a) != s;
      SettlingDrains(s, t, a);
      var rest := CanDrain(Do(s, a), Moved(s, t, a));
      more := Prepended(s, a, rest);
    }
  }

  lemma RestingLine(s: State, t: Token)
    requires TokenOk(s, t) && s.sender.Away? && s.inFlight == 1 && s.handlers == map[]
    ensures Line(s) == s.written + s.queue && CompletionsLeft(s, t) == |s.queue| + 1 && Calm(s, t)
  {
    CarriedIs(s, t);
  }

  lemma DrainsFrom(s: State, t: Token, more: seq<Action>)
    requires TokenOk(s, t) && s.sender.Away? && s.inFlight == 1 && s.handlers == map[]
    requires Only(Settling, more)
    requires Stuck(After(Do, s, more))
    ensures var s' := After(Do, s, more);
            && s'.flag == IDLE && s'.queue == [] && s'.inFlight == 0
            && s'.written == s.written + s.queue
            && Completions(s, more) == |s.queue| + 1
  {
    RestingLine(s, t);
    var t' := EverySchedule(s, t, more);
    StuckIsDrained(After(Do, s, more), t');
  }

  /** From a session with a write in flight and no sender, every schedule of successful completions that
      runs until nothing can move delivers exactly |queue| + 1 completions and writes everything. */
  lemma Drains(acts: seq<Action>, more: seq<Action>)
    requires var s := Reached(acts);
             && s.sender.Away? && s.inFlight == 1 && s.handlers == map[]
    requires Only(Settling, more)
    requires Stuck(Reached(acts + more))
    ensures var s, s' := Reached(acts), Reached(acts + more);
            && s'.flag == IDLE && s'.queue == [] && s'.inFlight == 0
            && s'.written == s.written + s.queue && |s'.written| == |s.sent|
            && Completions(s, more) == |s.queue| + 1
  {
    var t := WriteExclusion(acts);
    TokenIsOk(acts, t);
    Concat(Do, FRESH, acts, more);
    DrainsFrom(Reached(acts), t, more);
    RestingLine(Reached(acts), t);
    NearFifo(acts);
  }
}
