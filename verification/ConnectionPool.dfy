/** `ConnectionPool` with each method as one step of its caller; what other threads do while a caller waits
    is a parameter. */
module ConnectionPools {
  import opened SessionTypes

  type Conn = nat

  /** The waiting thread holds the mutex again and finds these connections free. */
  datatype Wake = Wake(free: set<Conn>, timedOut: bool)

  /** How many connections are made before one fails. */
  function FirstFailure(connects: seq<Option<Conn>>): (n: nat)
    ensures n <= |connects|
    ensures n < |connects| ==> connects[n].None?
    ensures forall i :: 0 <= i < n ==> connects[i].Some?
  {
    if connects == [] || connects[0].None? then 0 else 1 + FirstFailure(connects[1..])
  }

  ghost predicate Different(connects: seq<Option<Conn>>) {
    forall i, j :: 0 <= i < j < |connects| && connects[i].Some? ==> connects[i] != connects[j]
  }

  /** The timed wait gives up at wake-up `k`: a timeout, and never a free connection so far. */
  ghost predicate GivesUpAt(wakes: seq<Wake>, k: nat) {
    k < |wakes| && wakes[k].timedOut && forall i :: 0 <= i <= k ==> wakes[i].free == {}
  }

  /** The timed wait succeeds at wake-up `k`, the first that finds a connection, with no timeout before. */
  ghost predicate SucceedsAt(wakes: seq<Wake>, k: nat) {
    k < |wakes| && wakes[k].free != {} && forall i :: 0 <= i < k ==> wakes[i] == Wake({}, false)
  }

  class ConnectionPool {
    var free: set<Conn>

    /** `connects` says how each attempt ends, None for an exception.  An exception ends the loop and
        leaves the pool with the connections made so far. */
    constructor (connects: seq<Option<Conn>>)
      requires Different(connects)
      ensures |free| == FirstFailure(connects)
      ensures forall c :: c in free <==> Some(c) in connects[..FirstFailure(connects)]
    {
      free := {};
      new;
      var i := 0;
      while i < |connects| && connects[i].Some?
        invariant i <= FirstFailure(connects)
        invariant |free| == i
        invariant forall c :: c in free <==> Some(c) in connects[..i]
      {
        free := free + {connects[i].value};
        i := i + 1;
      }
    }

    method Take() returns (conn: Conn)
      requires free != {}
      modifies this
      ensures conn in old(free) && free == old(free) - {conn}
    {
      conn :| conn in free;
      free := free - {conn};
    }

    /** None is an empty wrapper: the wait ended with a timeout and nothing was free. */
    method AcquireConnection(wakes: seq<Wake>) returns (wrapper: Option<Conn>)
      requires wakes != [] && wakes[|wakes| - 1].timedOut
      modifies this
      ensures wrapper.None? <==> old(free) == {} && exists k: nat :: GivesUpAt(wakes, k)
      ensures wrapper.None? ==> free == {}
      ensures wrapper.Some? && old(free) != {} ==> wrapper.value in old(free) && free == old(free) - {wrapper.value}
      ensures wrapper.Some? && old(free) == {} ==>
                exists k: nat :: SucceedsAt(wakes, k) && wrapper.value in wakes[k].free
                            && free == wakes[k].free - {wrapper.value}
    {
      if free == {} {
        var k := 0;
        while true
          invariant k < |wakes| && free == {}
          invariant forall i :: 0 <= i < k ==> wakes[i] == Wake({}, false)
          decreases |wakes| - k
        {
          free := wakes[k].free;
          if free != {} {
            assert SucceedsAt(wakes, k);
            break;
          }
          if wakes[k].timedOut {
            assert GivesUpAt(wakes, k);
            return None;
          }
          k := k + 1;
        }
      }
      var conn := Take();
      return Some(conn);
    }

    /** The wrapper's destructor; an empty wrapper releases nothing and notifies nobody. */
    method ReleaseConnection(wrapper: Option<Conn>) returns (notified: bool)
      modifies this
      ensures free == old(free) + (if wrapper.Some? then {wrapper.value} else {})
      ensures notified <==> wrapper.Some?
    {
      if wrapper.None? {
        return false;
      }
      free := free + {wrapper.value};
      return true;
    }
  }
}
