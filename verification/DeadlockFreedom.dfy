/** Any number of the server's operations, under any schedule: somebody can always move, and every schedule
    that keeps moving ends with all operations finished and all mutexes free. */
module DeadlockFreedom {
  import opened Runs
  import opened LockOrder

  type Tid = nat

  /** The owner of every mutex that is taken, and what each thread has still to do. */
  datatype State = State(owner: map<Lock, Tid>, rest: seq<seq<Op>>)

  function Holding(owner: map<Lock, Tid>, t: Tid): set<Lock> {
    set lock | lock in owner && owner[lock] == t
  }

  predicate Unfinished(s: State, t: Tid) {
    t < |s.rest| && s.rest[t] != []
  }

  /** The thread's next operation does not have to wait. */
  predicate CanMove(s: State, t: Tid) {
    Unfinished(s, t) &&
    match s.rest[t][0]
    case Acquire(lock) => lock !in s.owner
    case AcquireBoth(lock, other) => lock !in s.owner && other !in s.owner
    case Release(lock) => true
  }

  function OwnersAfter(owner: map<Lock, Tid>, t: Tid, op: Op): map<Lock, Tid> {
    match op
    case Acquire(lock) => owner[lock := t]
    case AcquireBoth(lock, other) => owner[lock := t][other := t]
    case Release(lock) => owner - {lock}
  }

  /** Thread `t` takes its next step, if it can. */
  function Do(s: State, t: Tid): State {
    if CanMove(s, t) then State(OwnersAfter(s.owner, t, s.rest[t][0]), s.rest[t := s.rest[t][1..]]) else s
  }

  function Programs(ops: seq<Operation>): seq<seq<Op>> {
    seq(|ops|, i requires 0 <= i < |ops| => Program(ops[i]))
  }

  ghost function Reached(ops: seq<Operation>, acts: seq<Tid>): State {
    After(Do, State(map[], Programs(ops)), acts)
  }

  // ---------------------------------------------------------------- the discipline is kept

  ghost predicate Inv(s: State) {
    && (forall t :: 0 <= t < |s.rest| ==> Disciplined(Holding(s.owner, t), s.rest[t], {}))
    && (forall lock :: lock in s.owner ==> s.owner[lock] < |s.rest|)
  }

  lemma OthersHoldTheSame(s: State, t: Tid, u: Tid)
    requires Inv(s) && CanMove(s, t) && u != t
    ensures Holding(Do(s, t).owner, u) == Holding(s.owner, u)
  {
    if s.rest[t][0].Release? {
      assert s.rest[t][0].lock in Holding(s.owner, t);
    }
  }

  lemma MoverHolds(s: State, t: Tid)
    requires Inv(s) && CanMove(s, t)
    ensures Disciplined(Holding(Do(s, t).owner, t), s.rest[t][1..], {})
  {
    var held, now := Holding(s.owner, t), Holding(Do(s, t).owner, t);
    match s.rest[t][0]
    case Acquire(lock) => assert now == held + {lock};
    case AcquireBoth(lock, other) => assert now == held + {lock, other};
    case Release(lock) => assert now == held - {lock};
  }

  lemma InvKept(s: State, t: Tid)
    requires Inv(s)
    ensures Inv(Do(s, t))
  {
    if CanMove(s, t) {
      var s' := Do(s, t);
      forall u | 0 <= u < |s'.rest|
        ensures Disciplined(Holding(s'.owner, u), s'.rest[u], {})
      {
        if u == t {
          MoverHolds(s, t);
        } else {
          OthersHoldTheSame(s, t, u);
        }
      }
    }
  }

  lemma {:induction false} AlwaysInv(ops: seq<Operation>, acts: seq<Tid>)
    ensures Inv(Reached(ops, acts)) && |Reached(ops, acts).rest| == |ops|
    decreases |acts|
  {
    if acts == [] {
      forall t | 0 <= t < |ops|
        ensures Disciplined(Holding(map[], t), Programs(ops)[t], {})
      {
        EveryOperationDisciplined(ops[t]);
        assert Holding(map[], t) == {};
      }
    } else {
      AlwaysInv(ops, acts[..|acts| - 1]);
      InvKept(Reached(ops, acts[..|acts| - 1]), acts[|acts| - 1]);
    }
  }

  // ---------------------------------------------------------------- somebody can move

  /** How far up the thread's next mutex is; a thread that releases is above all. */
  function NextLevel(s: State, t: Tid): nat
    requires Unfinished(s, t)
  {
    if s.rest[t][0].Release? then 3 else Level(s.rest[t][0].lock)
  }

  /** A mutex that the thread waits for. */
  function Wanted(s: State, t: Tid): Lock
    requires Unfinished(s, t) && !CanMove(s, t)
  {
    if s.rest[t][0].lock in s.owner then s.rest[t][0].lock else s.rest[t][0].other
  }

  /** The owner of the mutex a thread waits for is unfinished, and what it does next is further up. */
  lemma OwnerIsFurtherUp(s: State, t: Tid)
    requires Inv(s) && Unfinished(s, t) && !CanMove(s, t)
    ensures Wanted(s, t) in s.owner
    ensures var u := s.owner[Wanted(s, t)]; Unfinished(s, u) && NextLevel(s, u) > NextLevel(s, t)
  {
    var lock := Wanted(s, t);
    var u := s.owner[lock];
    assert lock in Holding(s.owner, u);
    assert Disciplined(Holding(s.owner, u), s.rest[u], {});
    assert Disciplined(Holding(s.owner, t), s.rest[t], {});
  }

  lemma OwnerIsUnfinished(s: State, lock: Lock)
    requires Inv(s) && lock in s.owner
    ensures Unfinished(s, s.owner[lock])
  {
    assert lock in Holding(s.owner, s.owner[lock]);
    assert Disciplined(Holding(s.owner, s.owner[lock]), s.rest[s.owner[lock]], {});
  }

  lemma {:induction false} SomebodyMoves(s: State, t: Tid) returns (u: Tid)
    requires Inv(s) && Unfinished(s, t)
    ensures CanMove(s, u)
    decreases 3 - NextLevel(s, t)
  {
    u := t;
    if !CanMove(s, t) {
      OwnerIsFurtherUp(s, t);
      u := SomebodyMoves(s, s.owner[Wanted(s, t)]);
    }
  }

  /** In every reachable state with an unfinished operation, some operation can take its next step. */
  lemma NoDeadlock(ops: seq<Operation>, acts: seq<Tid>, t: Tid) returns (u: Tid)
    requires Unfinished(Reached(ops, acts), t)
    ensures CanMove(Reached(ops, acts), u)
  {
    AlwaysInv(ops, acts);
    u := SomebodyMoves(Reached(ops, acts), t);
  }

  // ---------------------------------------------------------------- and everybody finishes

  function StepsLeft(rest: seq<seq<Op>>): nat {
    if rest == [] then 0 else |rest[|rest| - 1]| + StepsLeft(rest[..|rest| - 1])
  }

  lemma {:induction false} StepsLeftUpdate(rest: seq<seq<Op>>, t: Tid, program: seq<Op>)
    requires t < |rest|
    ensures StepsLeft(rest[t := program]) + |rest[t]| == StepsLeft(rest) + |program|
    decreases |rest|
  {
    var n := |rest| - 1;
    if t == n {
      assert rest[t := program][..n] == rest[..n];
    } else {
      assert rest[t := program][..n] == rest[..n][t := program];
      StepsLeftUpdate(rest[..n], t, program);
    }
  }

  /** The steps of a schedule that were not spent waiting. */
  ghost function Moves(ops: seq<Operation>, acts: seq<Tid>): nat {
    if acts == [] then 0
    else Moves(ops, acts[..|acts| - 1])
         + (if CanMove(Reached(ops, acts[..|acts| - 1]), acts[|acts| - 1]) then 1 else 0)
  }

  /** Every move brings the end one step nearer. */
  lemma {:induction false} MovesAreCounted(ops: seq<Operation>, acts: seq<Tid>)
    ensures Moves(ops, acts) + StepsLeft(Reached(ops, acts).rest) == StepsLeft(Programs(ops))
    decreases |acts|
  {
    if acts != [] {
      var n := |acts| - 1;
      MovesAreCounted(ops, acts[..n]);
      var s := Reached(ops, acts[..n]);
      if CanMove(s, acts[n]) {
        StepsLeftUpdate(s.rest, acts[n], s.rest[acts[n]][1..]);
      }
    }
  }

  /** A state in which nobody can move has every operation finished and every mutex free; and no schedule
      makes more moves than the operations have steps. */
  lemma EverybodyFinishes(ops: seq<Operation>, acts: seq<Tid>)
    ensures Moves(ops, acts) <= StepsLeft(Programs(ops))
    ensures (forall u :: !CanMove(Reached(ops, acts), u)) ==>
              && (forall program :: program in Reached(ops, acts).rest ==> program == [])
              && Reached(ops, acts).owner == map[]
  {
    MovesAreCounted(ops, acts);
    AlwaysInv(ops, acts);
    var s := Reached(ops, acts);
    if forall u :: !CanMove(s, u) {
      forall t | 0 <= t < |ops|
        ensures s.rest[t] == []
      {
        if s.rest[t] != [] {
          var u := SomebodyMoves(s, t);
          assert false;
        }
      }
      if lock :| lock in s.owner {
        OwnerIsUnfinished(s, lock);
        assert false;
      }
    }
  }
}
