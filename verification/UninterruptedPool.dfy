/** The pool's methods, run by one thread with nobody in between, from any state of the pool: what the class
    `ConnectionPools.ConnectionPool` says of them is what their steps do. */
module UninterruptedPool {
  import opened Runs
  import opened ConnectionPoolSteps

  /** A free connection is taken without waiting. */
  lemma TakesAtOnce(s: State, t: Tid, conn: Conn)
    requires t !in s.pcs && s.owner.Free? && conn in s.free
    ensures After(Do, s, [Call(t), Lock(t), Look(t, conn), Unlock(t)]) ==
            s.(free := s.free - {conn}, pcs := s.pcs[t := Holding(conn)])
  {
    var s1 := Goes(s, t, Calling);
    var s2 := Goes(s, t, Looking).(owner := By(t));
    var s3 := Goes(s2, t, Returning(conn)).(free := s.free - {conn});
    var s4 := s.(free := s.free - {conn}, pcs := s.pcs[t := Holding(conn)]);
    assert s1.pcs[t := Looking] == s2.pcs && s3.pcs == s.pcs[t := Returning(conn)];
    assert s3.pcs[t := Holding(conn)] == s4.pcs;
    Path(Do, [s, s1, s2, s3, s4], [Call(t), Lock(t), Look(t, conn), Unlock(t)]);
  }

  /** With none free, a call goes to sleep and lets the mutex go. */
  lemma GoesToSleep(s: State, t: Tid, conn: Conn)
    requires t !in s.pcs && s.owner.Free? && s.free == {}
    ensures After(Do, s, [Call(t), Lock(t), Look(t, conn)]) == Goes(s, t, Sleeping)
  {
    var s1 := Goes(s, t, Calling);
    var s2 := Goes(s, t, Looking).(owner := By(t));
    assert s1.pcs[t := Looking] == s2.pcs && s2.pcs[t := Sleeping] == s.pcs[t := Sleeping];
    Path(Do, [s, s1, s2, Goes(s, t, Sleeping)], [Call(t), Lock(t), Look(t, conn)]);
  }

  /** A wake-up without a timeout that finds none changes nothing. */
  lemma SleepsOn(s: State, t: Tid, conn: Conn)
    requires t in s.pcs && s.pcs[t].Sleeping? && s.owner.Free? && s.free == {}
    ensures After(Do, s, [Wake(t, false), Lock(t), Look(t, conn)]) == s
  {
    var s1 := Goes(s, t, Woken(false));
    var s2 := Goes(s, t, Rechecking(false)).(owner := By(t));
    assert s1.pcs[t := Rechecking(false)] == s2.pcs && s2.pcs[t := Sleeping] == s.pcs;
    Path(Do, [s, s1, s2, s], [Wake(t, false), Lock(t), Look(t, conn)]);
  }

  /** A timeout that finds none ends the call with an empty wrapper and nothing changed. */
  lemma GivesUp(s: State, t: Tid, conn: Conn)
    requires t in s.pcs && s.pcs[t].Sleeping? && s.owner.Free? && s.free == {}
    ensures After(Do, s, [Wake(t, true), Lock(t), Look(t, conn)]) ==
            Goes(s, t, ReturningEmpty).(owner := By(t))
    ensures After(Do, s, [Wake(t, true), Lock(t), Look(t, conn), Unlock(t)]) == Leaves(s, t)
  {
    var s1 := Goes(s, t, Woken(true));
    var s2 := Goes(s, t, Rechecking(true)).(owner := By(t));
    var s3 := Goes(s, t, ReturningEmpty).(owner := By(t));
    assert s1.pcs[t := Rechecking(true)] == s2.pcs && s2.pcs[t := ReturningEmpty] == s3.pcs;
    assert s3.pcs - {t} == s.pcs - {t};
    Path(Do, [s, s1, s2, s3], [Wake(t, true), Lock(t), Look(t, conn)]);
    Path(Do, [s, s1, s2, s3, Leaves(s, t)], [Wake(t, true), Lock(t), Look(t, conn), Unlock(t)]);
  }

  /** A sleeper that wakes, timed out or not, takes a connection that has become free. */
  lemma WakesAndTakes(s: State, t: Tid, timedOut: bool, conn: Conn)
    requires t in s.pcs && s.pcs[t].Sleeping? && s.owner.Free? && conn in s.free
    ensures After(Do, s, [Wake(t, timedOut), Lock(t), Look(t, conn), Unlock(t)]) ==
            s.(free := s.free - {conn}, pcs := s.pcs[t := Holding(conn)])
  {
    var s1 := Goes(s, t, Woken(timedOut));
    var s2 := Goes(s, t, Rechecking(timedOut)).(owner := By(t));
    var s3 := Goes(s, t, Returning(conn)).(owner := By(t), free := s.free - {conn});
    var s4 := s.(free := s.free - {conn}, pcs := s.pcs[t := Holding(conn)]);
    assert s1.pcs[t := Rechecking(timedOut)] == s2.pcs && s2.pcs[t := Returning(conn)] == s3.pcs;
    assert s3.pcs[t := Holding(conn)] == s4.pcs;
    Path(Do, [s, s1, s2, s3, s4], [Wake(t, timedOut), Lock(t), Look(t, conn), Unlock(t)]);
  }

  /** The wrapper's destructor makes its connection free, lets the mutex go, and then notifies. */
  lemma Releases(s: State, t: Tid, conn: Conn)
    requires t in s.pcs && s.pcs[t] == Holding(conn) && s.owner.Free?
    ensures After(Do, s, [Drop(t), Lock(t), Insert(t), Unlock(t)]) ==
            Goes(s, t, Notifying).(free := s.free + {conn})
  {
    var s1 := Goes(s, t, Releasing(conn));
    var s2 := Goes(s, t, Inserting(conn)).(owner := By(t));
    var s3 := Goes(s, t, Inserted).(owner := By(t), free := s.free + {conn});
    var s4 := Goes(s, t, Notifying).(free := s.free + {conn});
    assert s1.pcs[t := Inserting(conn)] == s2.pcs && s2.pcs[t := Inserted] == s3.pcs;
    assert s3.pcs[t := Notifying] == s4.pcs;
    Path(Do, [s, s1, s2, s3, s4], [Drop(t), Lock(t), Insert(t), Unlock(t)]);
  }

  /** A notification wakes one sleeper, who is chosen freely; without a sleeper it is lost. */
  lemma Notifies(s: State, t: Tid, waiter: Tid, timedOut: bool)
    requires t in s.pcs && s.pcs[t].Notifying?
    ensures waiter in s.pcs && s.pcs[waiter].Sleeping? ==>
              Do(s, Notify(t, waiter, timedOut)) == Goes(Leaves(s, t), waiter, Woken(timedOut))
    ensures NobodySleeps(s) ==> Do(s, Notify(t, waiter, timedOut)) == Leaves(s, t)
  {}
}
