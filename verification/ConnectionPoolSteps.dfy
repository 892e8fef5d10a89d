/** The blocking connection pool, one mutex and condition-variable operation at a time, for any number of
    threads.  A waiter may be woken by a notification, by its timeout or spuriously; a thread that has just
    arrived may take a connection before a woken waiter does. */
module ConnectionPoolSteps {
  import opened Runs

  type Conn = nat
  type Tid = nat

  datatype Pc =
    | Calling                     // AcquireConnection: wants the mutex
    | Looking                     // holds it, about to look at the free connections
    | Sleeping                    // in wait_for, mutex released
    | Woken(timedOut: bool)       // out of the wait, wants the mutex back
    | Rechecking(timedOut: bool)  // holds it again, about to evaluate the predicate
    | Returning(conn: Conn)       // holds it, returns a wrapper with a connection
    | ReturningEmpty              // holds it, returns an empty wrapper
    | Holding(conn: Conn)         // a live wrapper
    | Releasing(conn: Conn)       // ~ConnectionWrapper: wants the mutex
    | Inserting(conn: Conn)       // holds it, about to insert
    | Inserted                    // holds it, about to release it
    | Notifying                   // mutex released, about to notify one waiter

  datatype Owner = Free | By(t: Tid)

  /** Threads outside the pool are absent from `pcs`. */
  datatype State = State(free: set<Conn>, owner: Owner, pcs: map<Tid, Pc>)

  datatype Action =
    | Call(t: Tid)
    | Lock(t: Tid)                                // acquire the mutex
    | Look(t: Tid, conn: Conn)                    // look under the mutex; begin() is conn if any is free
    | Wake(t: Tid, timedOut: bool)                // timeout or spurious wake-up
    | Unlock(t: Tid)                              // release the mutex
    | Drop(t: Tid)                                // destroy the wrapper
    | Insert(t: Tid)
    | Notify(t: Tid, waiter: Tid, timedOut: bool) // notify_one; the waiter may report a timeout all the same

  function Do(s: State, a: Action): State {
    if a.t !in s.pcs then
      if a.Call? then s.(pcs := s.pcs[a.t := Calling]) else s
    else match a
      case Call(t) => s
      case Lock(t) => if s.owner.Free? && WantsMutex(s.pcs[t]) then Locked(s, t) else s
      case Look(t, conn) => if InCheck(s.pcs[t]) then Looked(s, t, conn) else s
      case Wake(t, timedOut) => if s.pcs[t].Sleeping? then Goes(s, t, Woken(timedOut)) else s
      case Unlock(t) => Unlocked(s, t)
      case Drop(t) => if s.pcs[t].Holding? then Goes(s, t, Releasing(s.pcs[t].conn)) else s
      case Insert(t) =>
        if s.pcs[t].Inserting? then Goes(s, t, Inserted).(free := s.free + {s.pcs[t].conn}) else s
      case Notify(t, waiter, timedOut) =>
        if !s.pcs[t].Notifying? then s
        else if waiter in s.pcs && s.pcs[waiter].Sleeping? then Goes(Leaves(s, t), waiter, Woken(timedOut))
        else if NobodySleeps(s) then Leaves(s, t)
        else s
  }

  predicate NobodySleeps(s: State) {
    forall t :: t in s.pcs ==> !s.pcs[t].Sleeping?
  }

  function Goes(s: State, t: Tid, pc: Pc): State {
    s.(pcs := s.pcs[t := pc])
  }

  function Leaves(s: State, t: Tid): State {
    s.(pcs := s.pcs - {t})
  }

  predicate WantsMutex(pc: Pc) {
    pc.Calling? || pc.Woken? || pc.Releasing?
  }

  predicate InCheck(pc: Pc) {
    pc.Looking? || pc.Rechecking?
  }

  function Locked(s: State, t: Tid): State
    requires t in s.pcs
  {
    Goes(s, t, match s.pcs[t]
               case Woken(timedOut) => Rechecking(timedOut)
               case Releasing(conn) => Inserting(conn)
               case _ => Looking).(owner := By(t))
  }

  /** Take a connection if there is one; otherwise give up after a timeout, or (go back to) sleep. */
  function Looked(s: State, t: Tid, conn: Conn): State
    requires t in s.pcs && InCheck(s.pcs[t])
  {
    if s.free != {} then
      if conn in s.free then Goes(s, t, Returning(conn)).(free := s.free - {conn}) else s
    else if s.pcs[t] == Rechecking(true) then Goes(s, t, ReturningEmpty)
    else Goes(s, t, Sleeping).(owner := Free)
  }

  function Unlocked(s: State, t: Tid): State
    requires t in s.pcs
  {
    match s.pcs[t]
    case Returning(conn) => Goes(s, t, Holding(conn)).(owner := Free)
    case ReturningEmpty => Leaves(s, t).(owner := Free)
    case Inserted => Goes(s, t, Notifying).(owner := Free)
    case _ => s
  }

  ghost function Reached(conns: set<Conn>, acts: seq<Action>): State {
    After(Do, State(conns, Free, map[]), acts)
  }
}
