/** Schedules of the image store in which a fetch does not return the file. */
module FileSchedules {
  import opened Runs
  import opened FileManagerSteps
  import opened FileManagerTheorems
  import opened UninterruptedFiles

  lemma Then(s: State, acts: seq<Action>, now: State, a: Action) returns (next: seq<Action>, s': State)
    requires After(Do, s, acts) == now
    ensures next == acts + [a] && s' == Do(now, a) && After(Do, s, next) == s'
  {
    Snoc(Do, s, acts, a);
    next, s' := acts + [a], Do(now, a);
  }

  /** A fetch that runs alone: the cached entry is handed out, or the file is about to be opened. */
  lemma FetchLooksUp(s: State, r: Tid, name: Name)
    requires s.owner.Free? && Outside(s, r)
    ensures After(Do, s, [Fetch(r, name), Step(r), Step(r), Step(r)])
         == Placed(s, r, if name in s.cache then Got(name, s.cache[name]) else OpeningRead(name))
  {
    if name in s.cache {
      FetchesCached(s, r, name);
    } else {
      Misses(s, r, name);
    }
    assert [Fetch(r, name), Step(r)] + [Step(r), Step(r)] == [Fetch(r, name), Step(r), Step(r), Step(r)];
  }

  lemma StartsWriting(s: State, t: Tid)
    requires t in s.pcs && s.pcs[t].Opening?
    ensures var s' := Do(s, Step(t));
            && s'.pcs == s.pcs[t := Writing(s.pcs[t].file)] && s'.owner == s.owner && s'.cache == s.cache
            && s'.saved == s.saved && s'.hash == s.hash && s.disk.Keys <= s'.disk.Keys
  {}

  lemma StartsReading(s: State, r: Tid, name: Name)
    requires r in s.pcs && s.pcs[r] == OpeningRead(name) && name in s.disk
    ensures Do(s, Step(r)) == Placed(s, r, Reading(name, Quiet(s, name), Opens(s, name)))
  {}

  /** An output stream is opened if it is not open yet, and then the reader starts to read. */
  lemma ReadsUnderWriter(s: State, r: Tid, t: Tid, name: Name) returns (acts: seq<Action>, now: State)
    requires r in s.pcs && s.pcs[r] == OpeningRead(name) && name in s.disk && r != t
    requires t in s.pcs && (s.pcs[t].Opening? || s.pcs[t].Writing?) && s.hash(s.pcs[t].file) == name
    ensures now == After(Do, s, acts)
    ensures now.owner == s.owner && now.cache == s.cache && now.saved == s.saved && now.hash == s.hash
    ensures r in now.pcs && now.pcs[r].Reading? && now.pcs[r].name == name && !now.pcs[r].clean
  {
    var writing := s;
    acts := [];
    if s.pcs[t].Opening? {
      StartsWriting(s, t);
      acts, writing := Then(s, acts, s, Step(t));
    }
    assert t in writing.pcs && StreamOpen(writing.hash, writing.pcs[t], name);
    StartsReading(writing, r, name);
    acts, now := Then(s, acts, writing, Step(r));
  }

  lemma ReadsAny(s: State, r: Tid, name: Name, bytes: Bytes)
    requires r in s.pcs && s.pcs[r].Reading? && s.pcs[r].name == name && !s.pcs[r].clean
    ensures Do(s, Read(r, bytes)) == Placed(s, r, Loaded(name, bytes))
  {}

  lemma AnythingIsReturned(s: State, r: Tid, name: Name, bytes: Bytes) returns (acts: seq<Action>)
    requires s.owner.Free? && name !in s.cache
    requires r in s.pcs && s.pcs[r].Reading? && s.pcs[r].name == name && !s.pcs[r].clean
    ensures var s' := After(Do, s, acts);
            r in s'.pcs && s'.pcs[r] == Got(name, bytes) && s'.saved == s.saved
  {
    ReadsAny(s, r, name, bytes);
    Keeps(s, r, name, bytes);
    acts := [Read(r, bytes)] + [Step(r), Step(r), Step(r)];
    Cons(Do, s, Read(r, bytes), [Step(r), Step(r), Step(r)]);
  }

  lemma ReadsAnything(s: State, r: Tid, t: Tid, name: Name, bytes: Bytes) returns (acts: seq<Action>)
    requires s.owner.Free? && name !in s.cache && name in s.disk
    requires r in s.pcs && s.pcs[r] == OpeningRead(name) && r != t
    requires t in s.pcs && (s.pcs[t].Opening? || s.pcs[t].Writing?) && s.hash(s.pcs[t].file) == name
    ensures var s' := After(Do, s, acts);
            r in s'.pcs && s'.pcs[r] == Got(name, bytes) && s'.saved == s.saved
  {
    var first, now := ReadsUnderWriter(s, r, t, name);
    var second := AnythingIsReturned(now, r, name, bytes);
    Concat(Do, s, first, second);
    acts := first + second;
  }

  /** A fetch beside a save that has not assigned the cache may return anything. */
  lemma FetchBesideWriter(s: State, r: Tid, t: Tid, name: Name, bytes: Bytes) returns (more: seq<Action>)
    requires s.owner.Free? && Outside(s, r) && name !in s.cache && name in s.disk
    requires t in s.pcs && (s.pcs[t].Opening? || s.pcs[t].Writing?) && s.hash(s.pcs[t].file) == name
    ensures var s' := After(Do, s, [Fetch(r, name)] + more);
            r in s'.pcs && s'.pcs[r] == Got(name, bytes) && s'.saved == s.saved
  {
    FetchLooksUp(s, r, name);
    var second := ReadsAnything(Placed(s, r, OpeningRead(name)), r, t, name, bytes);
    more := FetchThen(s, r, name, second);
  }

  lemma FetchThen(s: State, r: Tid, name: Name, acts: seq<Action>) returns (more: seq<Action>)
    ensures After(Do, s, [Fetch(r, name)] + more) ==
            After(Do, After(Do, s, [Fetch(r, name), Step(r), Step(r), Step(r)]), acts)
  {
    more := [Step(r), Step(r), Step(r)] + acts;
    assert [Fetch(r, name)] + more == [Fetch(r, name), Step(r), Step(r), Step(r)] + acts;
    Concat(Do, s, [Fetch(r, name), Step(r), Step(r), Step(r)], acts);
  }

  lemma SomeoneWrites(s: State, name: Name) returns (t: Tid)
    requires Inv(s) && s.owner.Free? && name in s.truth && !Ready(s, name) && name !in s.cache
    ensures t in s.pcs && (s.pcs[t].Opening? || s.pcs[t].Writing?) && s.hash(s.pcs[t].file) == name
  {
    t :| t in s.pcs && Writes(s.hash, s.pcs[t], name);
    assert ThreadOk(s, s.pcs[t]);
  }

  lemma FetchCached(s: State, r: Tid, name: Name) returns (more: seq<Action>)
    requires s.owner.Free? && Outside(s, r) && name in s.cache
    ensures After(Do, s, [Fetch(r, name)] + more) == Placed(s, r, Got(name, s.cache[name]))
  {
    more := [Step(r), Step(r), Step(r)];
    FetchLooksUp(s, r, name);
    assert [Fetch(r, name)] + more == [Fetch(r, name), Step(r), Step(r), Step(r)];
  }

  /** A fetch that is not ready, from a state in which nobody holds the mutex. */
  lemma SomeFetchGoesWrong(s: State, r: Tid, name: Name) returns (more: seq<Action>, bytes: Bytes)
    requires Inv(s) && s.owner.Free? && Outside(s, r) && name in s.truth && !Ready(s, name)
    ensures var s' := After(Do, s, [Fetch(r, name)] + more);
            r in s'.pcs && s'.pcs[r] == Got(name, bytes) && s'.saved == s.saved
    ensures bytes != s.truth[name]
  {
    if name in s.cache {
      bytes := s.cache[name];
      more := FetchCached(s, r, name);
    } else {
      bytes := s.truth[name] + "!";
      var t := SomeoneWrites(s, name);
      more := FetchBesideWriter(s, r, t, name, bytes);
    }
  }

  /** If the file is not ready and nobody holds the mutex, some schedule makes a fetch return something else. */
  lemma ReadyNeeded(hash: Bytes -> Name, disk: map<Name, Bytes>, acts: seq<Action>, r: Tid, name: Name)
      returns (more: seq<Action>, bytes: Bytes)
    requires CollisionFree(Reached(hash, disk, acts))
    requires var s := Reached(hash, disk, acts);
             s.owner.Free? && Outside(s, r) && name in s.truth && !Ready(s, name)
    ensures var s' := Reached(hash, disk, acts + [Fetch(r, name)] + more);
            && CollisionFree(s') && r in s'.pcs && s'.pcs[r] == Got(name, bytes)
            && bytes != Reached(hash, disk, acts).truth[name]
  {
    AlwaysInv(hash, disk, acts);
    more, bytes := SomeFetchGoesWrong(Reached(hash, disk, acts), r, name);
    SavedGrows(Reached(hash, disk, acts), [Fetch(r, name)] + more);
    Concat(Do, Start(hash, disk), acts, [Fetch(r, name)] + more);
    assert acts + ([Fetch(r, name)] + more) == acts + [Fetch(r, name)] + more;
  }

  /** SaveFile's return alone is not enough: a save that finds the file already there returns its name while
      the first save is still writing, and a fetch after that may return anything. */
  lemma EarlyReturnIsNotReady(hash: Bytes -> Name, file: Bytes) returns (acts: seq<Action>)
    ensures var s := Reached(hash, map[], acts);
            && 1 in s.pcs && s.pcs[1] == Saved(file, false) && hash(file) in s.truth && s.truth[hash(file)] == file
            && CollisionFree(s) && s.owner.Free? && !Ready(s, hash(file))
  {
    var s := Start(hash, map[]);
    Begins(s, 0, file);
    acts := [Save(0, file), Step(0), Step(0)];
    var now := After(Do, s, acts);
    SavesNothing(now, 1, file);
    Concat(Do, s, acts, [Save(1, file), Step(1)]);
    acts := acts + [Save(1, file), Step(1)];
    assert Reached(hash, map[], acts).pcs[0] == Writing(file);
  }
}
