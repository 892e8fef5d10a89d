/** What every run of the pool keeps. */
module ConnectionPoolTheorems {
  import opened Runs
  import opened ConnectionPoolSteps

  predicate HoldsMutex(pc: Pc) {
    InCheck(pc) || pc.Returning? || pc.ReturningEmpty? || pc.Inserting? || pc.Inserted?
  }

  /** A thread that has a connection: a live wrapper, or one being returned or released. */
  predicate Has(s: State, t: Tid, conn: Conn) {
    t in s.pcs && (s.pcs[t].Returning? || s.pcs[t].Holding? || s.pcs[t].Releasing? || s.pcs[t].Inserting?)
    && s.pcs[t].conn == conn
  }

  /** A thread that will notify a waiter, or is a woken waiter yet to re-check. */
  predicate Owes(pc: Pc) {
    pc.Inserted? || pc.Notifying? || pc.Woken? || pc.Rechecking?
  }

  ghost function Owing(s: State): set<Tid> {
    set t | t in s.pcs && Owes(s.pcs[t])
  }

  ghost predicate MutexOk(s: State) {
    forall t :: s.owner == By(t) <==> t in s.pcs && HoldsMutex(s.pcs[t])
  }

  /** Free connections and those that threads have partition the pool's connections. */
  ghost predicate Partition(s: State, all: set<Conn>) {
    && s.free <= all
    && (forall t, conn :: Has(s, t, conn) ==> conn in all && conn !in s.free)
    && (forall t, u, conn :: Has(s, t, conn) && Has(s, u, conn) ==> t == u)
    && (forall conn :: conn in all && conn !in s.free ==> exists t :: Has(s, t, conn))
  }

  ghost predicate NoLostWakeup(s: State) {
    NobodySleeps(s) || |s.free| <= |Owing(s)|
  }

  ghost predicate EmptyOnlyWhenNoneFree(s: State) {
    forall t :: t in s.pcs && s.pcs[t].ReturningEmpty? ==> s.free == {}
  }

  lemma OwingUpdate(s: State, t: Tid, pc: Pc)
    ensures Owing(Goes(s, t, pc)) == if Owes(pc) then Owing(s) + {t} else Owing(s) - {t}
  {}

  lemma MutexKept(s: State, a: Action)
    requires MutexOk(s)
    ensures MutexOk(Do(s, a))
  {}

  predicate Takes(s: State, a: Action) {
    a.Look? && a.t in s.pcs && InCheck(s.pcs[a.t]) && a.conn in s.free
  }

  predicate Gives(s: State, a: Action) {
    a.Insert? && a.t in s.pcs && s.pcs[a.t].Inserting?
  }

  /** Only the taking look gives a thread a connection and only the insertion takes it away. */
  lemma HasMoves(s: State, a: Action, t: Tid, conn: Conn)
    ensures Has(Do(s, a), t, conn) <==>
              || (Has(s, t, conn) && !(Gives(s, a) && t == a.t) && !(Takes(s, a) && t == a.t))
              || (Takes(s, a) && t == a.t && conn == a.conn)
  {}

  lemma FreeMoves(s: State, a: Action)
    ensures Do(s, a).free == if Takes(s, a) then s.free - {a.conn}
                             else if Gives(s, a) then s.free + {s.pcs[a.t].conn}
                             else s.free
  {}

  lemma PartitionKept(s: State, a: Action, all: set<Conn>)
    requires Partition(s, all)
    ensures Partition(Do(s, a), all)
  {
    var s' := Do(s, a);
    FreeMoves(s, a);
    forall t, conn
      ensures Has(s', t, conn) <==>
                || (Has(s, t, conn) && !(Gives(s, a) && t == a.t) && !(Takes(s, a) && t == a.t))
                || (Takes(s, a) && t == a.t && conn == a.conn)
    {
      HasMoves(s, a, t, conn);
    }
    assert Gives(s, a) ==> Has(s, a.t, s.pcs[a.t].conn);
    forall conn | conn in all && conn !in s'.free
      ensures exists t :: Has(s', t, conn)
    {
      if Takes(s, a) && conn == a.conn {
        assert Has(s', a.t, conn);
      } else {
        var t :| Has(s, t, conn);
        assert Has(s', t, conn);
      }
    }
  }

  /** A step of thread `t` alone, from `s` to `Goes(s, t, pc)` up to the mutex and the free connections. */
  lemma OneThreadKeepsWakeup(s: State, t: Tid, pc: Pc, free: set<Conn>)
    requires NoLostWakeup(s) && t in s.pcs
    requires pc.Sleeping? && !s.pcs[t].Sleeping? ==> free == {}
    requires |free| + (if Owes(s.pcs[t]) then 1 else 0) <= |s.free| + (if Owes(pc) then 1 else 0) || free == {}
    ensures NoLostWakeup(Goes(s, t, pc).(free := free))
  {
    var s' := Goes(s, t, pc).(free := free);
    OwingUpdate(s, t, pc);
    assert Owing(s') == Owing(Goes(s, t, pc));
    assert Owes(s.pcs[t]) ==> t in Owing(s);
    if !NobodySleeps(s') && NobodySleeps(s) {
      assert pc.Sleeping?;
    }
  }

  lemma NotifyKeepsWakeup(s: State, a: Action)
    requires NoLostWakeup(s) && a.Notify? && Do(s, a) != s && a.t in s.pcs
    ensures NoLostWakeup(Do(s, a))
  {
    if !NobodySleeps(Do(s, a)) {
      assert Owing(Do(s, a)) == Owing(s) - {a.t} + {a.waiter};
      assert a.t in Owing(s) && a.waiter !in Owing(s);
    }
  }

  lemma UnlockKeepsWakeup(s: State, t: Tid)
    requires NoLostWakeup(s) && t in s.pcs
    ensures NoLostWakeup(Unlocked(s, t))
  {
    if s.pcs[t].ReturningEmpty? {
      assert Owing(Unlocked(s, t)) == Owing(s);
    } else if Unlocked(s, t) != s {
      OneThreadKeepsWakeup(s, t, Unlocked(s, t).pcs[t], s.free);
      assert Owing(Unlocked(s, t)) == Owing(Goes(s, t, Unlocked(s, t).pcs[t]));
    }
  }

  lemma LookKeepsWakeup(s: State, t: Tid, conn: Conn)
    requires NoLostWakeup(s) && t in s.pcs && InCheck(s.pcs[t])
    ensures NoLostWakeup(Looked(s, t, conn))
  {
    var s' := Looked(s, t, conn);
    if s' != s {
      OneThreadKeepsWakeup(s, t, s'.pcs[t], s'.free);
      assert Owing(s') == Owing(Goes(s, t, s'.pcs[t]).(free := s'.free));
    }
  }

  lemma WakeupKept(s: State, a: Action)
    requires NoLostWakeup(s)
    ensures NoLostWakeup(Do(s, a))
  {
    var s' := Do(s, a);
    if s' != s {
      if a.t !in s.pcs {
        OwingUpdate(s, a.t, Calling);
        assert a.t !in Owing(s);
      } else if a.Notify? {
        NotifyKeepsWakeup(s, a);
      } else if a.Unlock? {
        UnlockKeepsWakeup(s, a.t);
      } else if a.Look? {
        LookKeepsWakeup(s, a.t, a.conn);
      } else {
        OneThreadKeepsWakeup(s, a.t, s'.pcs[a.t], s'.free);
        assert Owing(s') == Owing(Goes(s, a.t, s'.pcs[a.t]).(free := s'.free));
      }
    }
  }

  lemma EmptyKept(s: State, a: Action)
    requires MutexOk(s) && EmptyOnlyWhenNoneFree(s)
    ensures EmptyOnlyWhenNoneFree(Do(s, a))
  {
    if Gives(s, a) {
      assert s.owner == By(a.t);
    }
  }

  // ---------------------------------------------------------------- every reachable state

  ghost predicate Inv(s: State, all: set<Conn>) {
    MutexOk(s) && Partition(s, all) && NoLostWakeup(s) && EmptyOnlyWhenNoneFree(s)
  }

  lemma {:induction false} AlwaysInv(all: set<Conn>, acts: seq<Action>)
    ensures Inv(Reached(all, acts), all)
    decreases |acts|
  {
    if acts != [] {
      var n := |acts| - 1;
      AlwaysInv(all, acts[..n]);
      MutexKept(Reached(all, acts[..n]), acts[n]);
      PartitionKept(Reached(all, acts[..n]), acts[n], all);
      WakeupKept(Reached(all, acts[..n]), acts[n]);
      EmptyKept(Reached(all, acts[..n]), acts[n]);
    }
  }

  /** No connection is lost, invented, or given to two threads. */
  lemma Conservation(all: set<Conn>, acts: seq<Action>, conn: Conn)
    ensures var s := Reached(all, acts);
            && (conn in all <==> conn in s.free || exists t :: Has(s, t, conn))
            && (conn in s.free ==> forall t :: !Has(s, t, conn))
            && (forall t, u :: Has(s, t, conn) && Has(s, u, conn) ==> t == u)
  {
    AlwaysInv(all, acts);
  }

  /** An empty wrapper is returned only while no connection is free, so while threads have all of them. */
  lemma EmptyWrapperMeansAllTaken(all: set<Conn>, acts: seq<Action>, t: Tid, conn: Conn)
    requires var s := Reached(all, acts); t in s.pcs && s.pcs[t].ReturningEmpty?
    requires conn in all
    ensures Reached(all, acts).free == {} && exists u :: u != t && Has(Reached(all, acts), u, conn)
  {
    AlwaysInv(all, acts);
    var u :| Has(Reached(all, acts), u, conn);
  }

  /** Woken by a timeout, and not yet back to sleep or out with a connection. */
  predicate TimedOut(s: State, t: Tid) {
    t in s.pcs && (s.pcs[t] == Woken(true) || s.pcs[t] == Rechecking(true) || s.pcs[t].ReturningEmpty?)
  }

  /** The timeout ends the sleep of thread `t`. */
  predicate TimesOut(s: State, a: Action, t: Tid) {
    && t in s.pcs && s.pcs[t].Sleeping?
    && (a == Wake(t, true) || (a.Notify? && a.waiter == t && a.timedOut && a.t in s.pcs && s.pcs[a.t].Notifying?))
  }

  lemma TimeoutBegins(s: State, a: Action, t: Tid)
    requires TimedOut(Do(s, a), t)
    ensures TimedOut(s, t) || TimesOut(s, a, t)
  {}

  /** An empty wrapper comes of a timeout in the same call: some action timed the thread's sleep out, and the thread has
      not slept, left or taken a connection since. */
  lemma {:induction false} EmptyWrapperMeansTimeout(all: set<Conn>, acts: seq<Action>, t: Tid) returns (i: nat)
    requires TimedOut(Reached(all, acts), t)
    ensures i < |acts| && TimesOut(Reached(all, acts[..i]), acts[i], t)
    ensures forall k :: i < k <= |acts| ==> TimedOut(Reached(all, acts[..k]), t)
    decreases |acts|
  {
    var n := |acts| - 1;
    TimeoutBegins(Reached(all, acts[..n]), acts[n], t);
    assert acts[..|acts|] == acts;
    if TimedOut(Reached(all, acts[..n]), t) {
      i := EmptyWrapperMeansTimeout(all, acts[..n], t);
      assert forall k :: 0 <= k <= n ==> acts[..n][..k] == acts[..k];
      forall k | i < k <= |acts|
        ensures TimedOut(Reached(all, acts[..k]), t)
      {
        assert k <= n ==> TimedOut(Reached(all, acts[..n][..k]), t);
      }
    } else {
      i := n;
    }
  }

  /** A thread that looks takes a free connection if there is one, whether it has timed out or not; if there is none, it
      gives up after a timeout and (goes back to) sleep with the mutex released without one. */
  lemma LookMeans(s: State, t: Tid, conn: Conn)
    requires t in s.pcs && InCheck(s.pcs[t]) && (s.free != {} ==> conn in s.free)
    ensures var s' := Do(s, Look(t, conn));
            && t in s'.pcs
            && (s'.pcs[t] == Returning(conn) <==> s.free != {})
            && (s'.pcs[t] == ReturningEmpty <==> s.free == {} && s.pcs[t] == Rechecking(true))
            && (s'.pcs[t] == Sleeping <==> s.free == {} && s.pcs[t] != Rechecking(true))
            && s'.free == s.free - {conn}
            && s'.owner == (if s'.pcs[t].Sleeping? then Free else s.owner)
  {
    assert s.free == {} ==> s.free - {conn} == s.free;
  }

  /** While somebody sleeps, every free connection has a thread that is about to notify or to re-check. */
  lemma EveryFreeConnectionIsAccountedFor(all: set<Conn>, acts: seq<Action>, sleeper: Tid)
    requires var s := Reached(all, acts); sleeper in s.pcs && s.pcs[sleeper].Sleeping?
    ensures |Reached(all, acts).free| <= |Owing(Reached(all, acts))|
  {
    AlwaysInv(all, acts);
  }

  /** The pool's own steps, as opposed to what callers, clocks and spurious wake-ups do. */
  predicate Internal(a: Action) {
    a.Lock? || a.Look? || a.Unlock? || a.Insert? || a.Notify?
  }

  /** A thread inside the pool that does not sleep can move, or the owner of the mutex can. */
  lemma Progress(all: set<Conn>, acts: seq<Action>, t: Tid) returns (a: Action)
    requires var s := Reached(all, acts); t in s.pcs && !s.pcs[t].Sleeping? && !s.pcs[t].Holding?
    ensures Internal(a) && Do(Reached(all, acts), a) != Reached(all, acts)
  {
    AlwaysInv(all, acts);
    var s := Reached(all, acts);
    if WantsMutex(s.pcs[t]) && s.owner.Free? {
      a := Lock(t);
    } else if s.pcs[t].Notifying? {
      if w :| w in s.pcs && s.pcs[w].Sleeping? {
        a := Notify(t, w, false);
        assert Do(s, a).pcs[w] == Woken(false);
      } else {
        a := Notify(t, t, false);
        assert t !in Do(s, a).pcs;
      }
    } else {
      var o := if WantsMutex(s.pcs[t]) then s.owner.t else t;
      assert s.owner == By(o);
      if InCheck(s.pcs[o]) {
        var conn := if c :| c in s.free then c else 0;
        a := Look(o, conn);
        assert Do(s, a).pcs[o] != s.pcs[o];
      } else if s.pcs[o].Inserting? {
        a := Insert(o);
        assert Do(s, a).pcs[o] != s.pcs[o];
      } else {
        a := Unlock(o);
        assert Do(s, a).owner != s.owner;
      }
    }
  }

  /** No wake-up is ever lost: once the pool's own steps have run out, a thread still asleep means
      that no connection is free, and every connection is in a live wrapper. */
  lemma NobodySleepsThroughARelease(all: set<Conn>, acts: seq<Action>, sleeper: Tid)
    requires var s := Reached(all, acts);
             && sleeper in s.pcs && s.pcs[sleeper].Sleeping?
             && forall a :: Internal(a) ==> Do(s, a) == s
    ensures var s := Reached(all, acts);
            s.free == {} && forall conn :: conn in all ==> exists t :: t in s.pcs && s.pcs[t] == Holding(conn)
  {
    AlwaysInv(all, acts);
    var s := Reached(all, acts);
    forall t | t in s.pcs
      ensures s.pcs[t].Sleeping? || s.pcs[t].Holding?
    {
      if !s.pcs[t].Sleeping? && !s.pcs[t].Holding? {
        var a := Progress(all, acts, t);
        assert false;
      }
    }
    assert Owing(s) == {};
    forall conn | conn in all
      ensures exists t :: t in s.pcs && s.pcs[t] == Holding(conn)
    {
      var t :| Has(s, t, conn);
    }
  }
}
