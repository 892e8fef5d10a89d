/** Truth of the cache, and when a fetch is certain to return the file. */
module FileManagerTheorems {
  import opened Runs
  import opened FileManagerSteps

  /** The hash does not collide on the contents passed to SaveFile so far. */
  ghost predicate CollisionFree(s: State) {
    forall f, g :: f in s.saved && g in s.saved && s.hash(f) == s.hash(g) ==> f == g
  }

  predicate HoldsMutex(pc: Pc) {
    pc.Assigning? || pc.Assigned? || pc.LookingUp? || pc.Missed? || pc.Rechecking? || pc.Answering?
  }

  predicate Saver(pc: Pc) {
    pc.Checking? || pc.Opening? || pc.Writing? || pc.Assigning? || pc.Assigned? || pc.Closing? || pc.Saved?
  }

  /** A save of `name` whose cache assignment is still to come. */
  predicate Unassigned(s: State, t: Tid, name: Name) {
    t in s.pcs && (s.pcs[t].Writing? || s.pcs[t].Assigning?) && s.hash(s.pcs[t].file) == name
  }

  ghost predicate Pending(s: State, name: Name) {
    exists t :: Unassigned(s, t, name)
  }

  ghost predicate MutexOk(s: State) {
    forall t :: s.owner == By(t) <==> t in s.pcs && HoldsMutex(s.pcs[t])
  }

  ghost predicate TruthOk(s: State) {
    && s.truth.Keys == s.disk.Keys
    && (forall name :: name in s.initial ==> name in s.truth && s.truth[name] == s.initial[name])
    && (forall name :: name in s.truth && name !in s.initial ==>
          s.truth[name] in s.saved && s.hash(s.truth[name]) == name)
    && (forall name :: name in s.disk && Quiet(s, name) ==> s.disk[name] == s.truth[name])
    && (forall name :: Opens(s, name) > 0 ==> CachedOrPending(s, name))
  }

  /** What a thread's place says about the files. */
  ghost predicate ThreadOk(s: State, pc: Pc) {
    match pc
    case Opening(file) => file in s.saved && s.hash(file) !in s.initial
    case Writing(file) => IsTrue(s, file) && Opens(s, s.hash(file)) > 0
    case Assigning(file) => IsTrue(s, file) && Opens(s, s.hash(file)) > 0
    case Assigned(file) => TrueInCache(s, file) && Opens(s, s.hash(file)) > 0
    case Closing(file) => TrueInCache(s, file) && Opens(s, s.hash(file)) > 0
    case Saved(file, wrote) => (wrote ==> TrueInCache(s, file)) && s.hash(file) in s.disk
    case Checking(file) => file in s.saved
    case Reading(name, clean, seen) =>
      && name in s.disk
      && seen <= Opens(s, name)
      && (clean && seen == Opens(s, name) ==> Quiet(s, name))
      && (!clean ==> Opens(s, name) > 0)
    case Loaded(name, bytes) => InHand(s, name, bytes)
    case Rechecking(name, bytes) => InHand(s, name, bytes)
    case _ => true
  }

  ghost predicate IsTrue(s: State, file: Bytes) {
    s.hash(file) in s.truth && s.truth[s.hash(file)] == file
  }

  ghost predicate TrueInCache(s: State, file: Bytes) {
    IsTrue(s, file) && s.hash(file) in s.cache && s.cache[s.hash(file)] == file
  }

  ghost predicate CachedOrPending(s: State, name: Name) {
    name in s.cache || Pending(s, name)
  }

  /** Bytes read from disk are the file, or the cache has an entry by now, or a save will make one. */
  ghost predicate InHand(s: State, name: Name, bytes: Bytes) {
    name in s.truth && (bytes == s.truth[name] || CachedOrPending(s, name))
  }

  /** A cached value differs from the file's full content only while some SaveFile of that name
      has not yet reached its cache assignment. */
  ghost predicate CacheTrue(s: State) {
    forall name :: name in s.cache ==> name in s.truth && (s.cache[name] == s.truth[name] || Pending(s, name))
  }

  ghost predicate Inv(s: State) {
    MutexOk(s) && TruthOk(s) && CacheTrue(s) && forall t :: t in s.pcs ==> ThreadOk(s, s.pcs[t])
  }

  // ---------------------------------------------------------------- what every step keeps

  /** What no step takes back. */
  ghost predicate Grows(s: State, s': State) {
    && s'.hash == s.hash && s'.initial == s.initial && s.saved <= s'.saved
    && s.disk.Keys <= s'.disk.Keys
    && (forall name :: name in s.truth ==> name in s'.truth && s'.truth[name] == s.truth[name])
    && (forall name :: Opens(s, name) <= Opens(s', name))
    && (forall name :: CachedOrPending(s, name) ==> CachedOrPending(s', name))
    && (forall file :: TrueInCache(s, file) ==> TrueInCache(s', file))
    && (forall name :: Quiet(s, name) ==> Quiet(s', name) || Opens(s, name) < Opens(s', name))
  }

  /** Only a cache assignment ends the time in which a save is unassigned. */
  lemma StaysUnassigned(s: State, a: Action, name: Name)
    requires Enabled(s, a) && Unassigned(s, a.t, name)
    ensures Unassigned(Do(s, a), a.t, name) || name in Do(s, a).cache
  {}

  lemma PendingFrame(s: State, s': State, t: Tid, pc: Pc, name: Name)
    requires s'.hash == s.hash && s'.pcs == s.pcs[t := pc] && s.cache.Keys <= s'.cache.Keys
    requires Unassigned(s, t, name) ==> Unassigned(s', t, name) || name in s'.cache
    requires CachedOrPending(s, name)
    ensures CachedOrPending(s', name)
  {
    if name !in s'.cache {
      var u :| Unassigned(s, u, name);
      assert Unassigned(s', u, name);
    }
  }

  /** Only opening a stream opens a stream. */
  lemma OpensOne(s: State, a: Action, name: Name)
    requires Enabled(s, a) && StreamOpen(s.hash, NextPc(s, a), name)
    ensures (a.t in s.pcs && StreamOpen(s.hash, s.pcs[a.t], name)) || Opens(s, name) < Opens(Do(s, a), name)
  {}

  lemma QuietFrame(s: State, s': State, t: Tid, pc: Pc, name: Name)
    requires s'.hash == s.hash && s'.pcs == s.pcs[t := pc] && Quiet(s, name)
    requires !StreamOpen(s.hash, pc, name)
    ensures Quiet(s', name)
  {}

  lemma TrueStays(s: State, a: Action, file: Bytes)
    requires Enabled(s, a) && TrueInCache(s, file)
    requires a.t in s.pcs ==> ThreadOk(s, s.pcs[a.t])
    ensures TrueInCache(Do(s, a), file)
  {}

  lemma TruthGrows(s: State, a: Action, name: Name)
    requires Enabled(s, a)
    ensures Opens(s, name) <= Opens(Do(s, a), name)
    ensures name in s.truth ==> name in Do(s, a).truth && Do(s, a).truth[name] == s.truth[name]
  {
    if !(a.Step? && TouchesFiles(s.pcs[a.t])) {
      OthersTouchNothing(s, a);
    }
  }

  lemma StepGrows(s: State, a: Action)
    requires Inv(s) && Enabled(s, a)
    ensures Grows(s, Do(s, a))
  {
    assert Do(s, a).pcs == s.pcs[a.t := NextPc(s, a)];
    GrowsFrom(s, a, Do(s, a), NextPc(s, a));
  }

  lemma GrowsFrom(s: State, a: Action, s': State, pc: Pc)
    requires Inv(s) && Enabled(s, a) && s' == Do(s, a) && pc == NextPc(s, a)
    requires s'.pcs == s.pcs[a.t := pc] && s'.hash == s.hash && s'.initial == s.initial
    requires s.cache.Keys <= s'.cache.Keys && s.disk.Keys <= s'.disk.Keys && s.saved <= s'.saved
    ensures Grows(s, s')
  {
    forall name
      ensures Opens(s, name) <= Opens(s', name)
      ensures name in s.truth ==> name in s'.truth && s'.truth[name] == s.truth[name]
    {
      TruthGrows(s, a, name);
    }
    forall name | CachedOrPending(s, name)
      ensures CachedOrPending(s', name)
    {
      if Unassigned(s, a.t, name) {
        StaysUnassigned(s, a, name);
      }
      PendingFrame(s, s', a.t, pc, name);
    }
    forall name | Quiet(s, name)
      ensures Quiet(s', name) || Opens(s, name) < Opens(s', name)
    {
      if StreamOpen(s.hash, pc, name) {
        OpensOne(s, a, name);
      } else {
        QuietFrame(s, s', a.t, pc, name);
      }
    }
    forall file | TrueInCache(s, file)
      ensures TrueInCache(s', file)
    {
      TrueStays(s, a, file);
    }
  }

  lemma ThreadOkGrows(s: State, s': State, pc: Pc)
    requires Grows(s, s') && ThreadOk(s, pc)
    ensures ThreadOk(s', pc)
  {}

  lemma OwnerSteps(s: State, a: Action)
    requires Enabled(s, a)
    ensures Do(s, a).owner == if a.Step? && WantsMutex(s.pcs[a.t]) then By(a.t)
                              else if a.Step? && Unlocks(s.pcs[a.t]) then Free else s.owner
  {}

  lemma HolderSteps(s: State, a: Action)
    requires Enabled(s, a)
    ensures HoldsMutex(NextPc(s, a)) <==>
            a.Step? && (WantsMutex(s.pcs[a.t]) || (HoldsMutex(s.pcs[a.t]) && !Unlocks(s.pcs[a.t])))
    ensures a.t in s.pcs && HoldsMutex(s.pcs[a.t]) ==> a.Step?
  {}

  lemma OwnerMoves(s: State, a: Action)
    requires Enabled(s, a)
    requires a.t in s.pcs && HoldsMutex(s.pcs[a.t]) <==> s.owner == By(a.t)
    ensures Do(s, a).owner == if HoldsMutex(NextPc(s, a)) then By(a.t)
                              else if s.owner == By(a.t) then Free else s.owner
    ensures HoldsMutex(NextPc(s, a)) ==> s.owner == By(a.t) || s.owner.Free?
  {
    OwnerSteps(s, a);
    HolderSteps(s, a);
  }

  lemma MutexFrame(s: State, s': State, t: Tid, pc: Pc)
    requires MutexOk(s) && s'.pcs == s.pcs[t := pc]
    requires s'.owner == if HoldsMutex(pc) then By(t) else if s.owner == By(t) then Free else s.owner
    requires HoldsMutex(pc) ==> s.owner == By(t) || s.owner.Free?
    ensures MutexOk(s')
  {}

  lemma MutexKept(s: State, a: Action)
    requires MutexOk(s) && Enabled(s, a)
    ensures MutexOk(Do(s, a))
  {
    OwnerMoves(s, a);
    assert Do(s, a).pcs == s.pcs[a.t := NextPc(s, a)];
    MutexFrame(s, Do(s, a), a.t, NextPc(s, a));
  }

  // ---------------------------------------------------------------- the acting thread

  /** A saver that opens its file finds either no file or one with the same content. */
  lemma OpenedIsTrue(s: State, a: Action)
    requires Inv(s) && CollisionFree(s) && a.Step? && Enabled(s, a) && s.pcs[a.t].Opening?
    ensures ThreadOk(Do(s, a), NextPc(s, a))
  {
    var file := s.pcs[a.t].file;
    assert ThreadOk(s, s.pcs[a.t]);
    assert file in s.saved;
  }

  lemma SaverOk(s: State, a: Action)
    requires Inv(s) && CollisionFree(s) && a.Step? && Enabled(s, a) && Saver(s.pcs[a.t])
    ensures ThreadOk(Do(s, a), NextPc(s, a))
  {
    assert ThreadOk(s, s.pcs[a.t]);
    if s.pcs[a.t].Opening? {
      OpenedIsTrue(s, a);
    }
  }

  lemma ReadStartsOk(s: State, a: Action)
    requires Inv(s) && a.Step? && Enabled(s, a) && s.pcs[a.t].OpeningRead?
    ensures ThreadOk(Do(s, a), NextPc(s, a))
  {
    var name := s.pcs[a.t].name;
    if Quiet(s, name) {
      QuietFrame(s, Do(s, a), a.t, NextPc(s, a), name);
    } else {
      var u :| u in s.pcs && StreamOpen(s.hash, s.pcs[u], name);
      assert ThreadOk(s, s.pcs[u]);
    }
  }

  lemma ReadOk(s: State, a: Action)
    requires Inv(s) && a.Read? && Enabled(s, a)
    ensures ThreadOk(s, NextPc(s, a))
  {
    assert ThreadOk(s, s.pcs[a.t]);
  }

  lemma ActorOk(s: State, a: Action)
    requires Inv(s) && CollisionFree(s) && Enabled(s, a) && Grows(s, Do(s, a))
    ensures ThreadOk(Do(s, a), NextPc(s, a))
  {
    if a.Read? {
      ReadOk(s, a);
      ThreadOkGrows(s, Do(s, a), NextPc(s, a));
    } else if a.Step? {
      if Saver(s.pcs[a.t]) {
        SaverOk(s, a);
      } else if s.pcs[a.t].OpeningRead? {
        ReadStartsOk(s, a);
      } else if s.pcs[a.t].Loaded? {
        assert ThreadOk(s, s.pcs[a.t]);
        ThreadOkGrows(s, Do(s, a), NextPc(s, a));
      }
    }
  }

  // ---------------------------------------------------------------- disk and cache

  predicate OpensStream(s: State, a: Action) {
    Enabled(s, a) && a.Step? && s.pcs[a.t].Opening?
  }

  predicate TouchesFiles(pc: Pc) {
    pc.Opening? || pc.Closing? || pc.Assigning? || pc.Rechecking?
  }

  lemma OthersTouchNothing(s: State, a: Action)
    requires Enabled(s, a) && !(a.Step? && TouchesFiles(s.pcs[a.t]))
    ensures Do(s, a).disk == s.disk && Do(s, a).truth == s.truth && Do(s, a).cache == s.cache
    ensures Do(s, a).opens == s.opens
  {
    var after := Effect(s, a);
    assert after == s || after == s.(saved := after.saved) || after == s.(owner := after.owner);
  }

  lemma TruthMoves(s: State, a: Action)
    requires Enabled(s, a)
    ensures Do(s, a).truth == if OpensStream(s, a) && s.hash(s.pcs[a.t].file) !in s.truth
                              then s.truth[s.hash(s.pcs[a.t].file) := s.pcs[a.t].file]
                              else s.truth
  {
    if !(a.Step? && TouchesFiles(s.pcs[a.t])) {
      OthersTouchNothing(s, a);
    }
  }

  lemma DiskKeysMove(s: State, a: Action)
    requires Enabled(s, a)
    requires a.t in s.pcs && s.pcs[a.t].Closing? ==> s.hash(s.pcs[a.t].file) in s.disk
    ensures Do(s, a).disk.Keys == if OpensStream(s, a) then s.disk.Keys + {s.hash(s.pcs[a.t].file)} else s.disk.Keys
  {
    if !(a.Step? && TouchesFiles(s.pcs[a.t])) {
      OthersTouchNothing(s, a);
    }
  }

  lemma TruthGrowsFrom(s: State, a: Action)
    requires TruthOk(s) && Enabled(s, a)
    requires a.t in s.pcs ==> ThreadOk(s, s.pcs[a.t])
    ensures var s' := Do(s, a);
            && s'.truth.Keys == s'.disk.Keys
            && (forall name :: name in s'.initial ==> name in s'.truth && s'.truth[name] == s'.initial[name])
            && (forall name :: name in s'.truth && name !in s'.initial ==>
                  s'.truth[name] in s'.saved && s'.hash(s'.truth[name]) == name)
  {
    TruthMoves(s, a);
    DiskKeysMove(s, a);
    if OpensStream(s, a) {
      TruthFrame(s, Do(s, a), s.pcs[a.t].file);
    }
  }

  lemma TruthFrame(s: State, s': State, file: Bytes)
    requires TruthOk(s) && file in s.saved && s.hash(file) !in s.initial
    requires s'.hash == s.hash && s'.initial == s.initial && s.saved <= s'.saved
    requires s'.truth == if s.hash(file) !in s.truth then s.truth[s.hash(file) := file] else s.truth
    requires s'.disk.Keys == s.disk.Keys + {s.hash(file)}
    ensures && s'.truth.Keys == s'.disk.Keys
            && (forall name :: name in s'.initial ==> name in s'.truth && s'.truth[name] == s'.initial[name])
            && (forall name :: name in s'.truth && name !in s'.initial ==>
                  s'.truth[name] in s'.saved && s'.hash(s'.truth[name]) == name)
  {}

  lemma DiskMoves(s: State, a: Action, name: Name)
    requires Enabled(s, a) && name in Do(s, a).disk
    ensures || (a.t in s.pcs && s.pcs[a.t].Closing? && s.hash(s.pcs[a.t].file) == name
                && Do(s, a).disk[name] == s.pcs[a.t].file)
            || (name in s.disk && Do(s, a).disk[name] == s.disk[name])
            || StreamOpen(s.hash, NextPc(s, a), name)
  {
    if !(a.Step? && TouchesFiles(s.pcs[a.t])) {
      OthersTouchNothing(s, a);
    }
  }

  lemma StreamCloses(s: State, a: Action, name: Name)
    requires Enabled(s, a) && a.t in s.pcs && StreamOpen(s.hash, s.pcs[a.t], name)
    ensures StreamOpen(s.hash, NextPc(s, a), name) || (s.pcs[a.t].Closing? && Do(s, a).disk[name] == s.pcs[a.t].file)
  {}

  /** A file nobody writes holds its full content. */
  lemma DiskKept(s: State, a: Action, name: Name)
    requires Inv(s) && Enabled(s, a) && Grows(s, Do(s, a))
    requires name in Do(s, a).disk && Quiet(Do(s, a), name)
    ensures name in Do(s, a).truth && Do(s, a).disk[name] == Do(s, a).truth[name]
  {
    var s' := Do(s, a);
    assert s'.pcs[a.t] == NextPc(s, a);
    DiskMoves(s, a, name);
    if a.t in s.pcs && StreamOpen(s.hash, s.pcs[a.t], name) {
      StreamCloses(s, a, name);
      assert ThreadOk(s, s.pcs[a.t]);
    } else {
      forall t | t in s.pcs
        ensures !StreamOpen(s.hash, s.pcs[t], name)
      {
        assert t != a.t ==> s'.pcs[t] == s.pcs[t];
      }
      assert Quiet(s, name);
    }
  }

  lemma OpensKept(s: State, a: Action, name: Name)
    requires Inv(s) && Enabled(s, a) && Grows(s, Do(s, a)) && Opens(Do(s, a), name) > 0
    ensures CachedOrPending(Do(s, a), name)
  {
    if Opens(s, name) == 0 {
      assert Unassigned(Do(s, a), a.t, name);
    }
  }

  predicate Assigns(s: State, a: Action) {
    Enabled(s, a) && a.Step? && s.pcs[a.t].Assigning?
  }

  predicate Stores(s: State, a: Action) {
    Enabled(s, a) && a.Step? && s.pcs[a.t].Rechecking? && s.pcs[a.t].name !in s.cache
  }

  lemma CacheMoves(s: State, a: Action)
    requires Enabled(s, a)
    ensures Do(s, a).cache == if Assigns(s, a) then s.cache[s.hash(s.pcs[a.t].file) := s.pcs[a.t].file]
                              else if Stores(s, a) then s.cache[s.pcs[a.t].name := s.pcs[a.t].bytes]
                              else s.cache
  {
    if !(a.Step? && TouchesFiles(s.pcs[a.t])) {
      OthersTouchNothing(s, a);
    }
  }

  lemma UnassignedUntilAssigned(s: State, a: Action, name: Name)
    requires Enabled(s, a) && Unassigned(s, a.t, name) && !Assigns(s, a)
    ensures Unassigned(Do(s, a), a.t, name)
  {}

  lemma PendingStays(s: State, a: Action, name: Name)
    requires Enabled(s, a) && Pending(s, name) && !(Assigns(s, a) && s.hash(s.pcs[a.t].file) == name)
    ensures Pending(Do(s, a), name)
  {
    var t :| Unassigned(s, t, name);
    if t == a.t {
      UnassignedUntilAssigned(s, a, name);
    } else {
      assert Do(s, a).pcs[t] == s.pcs[t];
      assert Unassigned(Do(s, a), t, name);
    }
  }

  lemma CacheKept(s: State, a: Action, name: Name)
    requires Inv(s) && Enabled(s, a) && Grows(s, Do(s, a)) && name in Do(s, a).cache
    ensures var s' := Do(s, a); name in s'.truth && (s'.cache[name] == s'.truth[name] || Pending(s', name))
  {
    CacheMoves(s, a);
    if Assigns(s, a) && s.hash(s.pcs[a.t].file) == name {
      assert ThreadOk(s, s.pcs[a.t]);
    } else {
      if Stores(s, a) && s.pcs[a.t].name == name {
        assert ThreadOk(s, s.pcs[a.t]);
      }
      if Pending(s, name) {
        PendingStays(s, a, name);
      }
    }
  }

  lemma InvKept(s: State, a: Action)
    requires Inv(s) && CollisionFree(s)
    ensures Inv(Do(s, a))
  {
    if Enabled(s, a) {
      var s' := Do(s, a);
      MutexKept(s, a);
      StepGrows(s, a);
      ActorOk(s, a);
      RestKept(s, a, s');
    }
  }

  lemma RestKept(s: State, a: Action, s': State)
    requires Inv(s) && Enabled(s, a) && s' == Do(s, a) && Grows(s, s') && MutexOk(s')
    requires ThreadOk(s', NextPc(s, a))
    ensures Inv(s')
  {
    forall t | t in s'.pcs
      ensures ThreadOk(s', s'.pcs[t])
    {
      if t != a.t {
        ThreadOkGrows(s, s', s.pcs[t]);
      }
    }
    TruthGrowsFrom(s, a);
    forall name | name in s'.disk && Quiet(s', name)
      ensures s'.disk[name] == s'.truth[name]
    {
      DiskKept(s, a, name);
    }
    forall name | Opens(s', name) > 0
      ensures CachedOrPending(s', name)
    {
      OpensKept(s, a, name);
    }
    forall name | name in s'.cache
      ensures name in s'.truth && (s'.cache[name] == s'.truth[name] || Pending(s', name))
    {
      CacheKept(s, a, name);
    }
  }

  // ---------------------------------------------------------------- every reachable state

  lemma SavedGrows(s: State, acts: seq<Action>)
    ensures s.saved <= After(Do, s, acts).saved && After(Do, s, acts).hash == s.hash
    decreases |acts|
  {
    if acts != [] {
      SavedGrows(s, acts[..|acts| - 1]);
    }
  }

  lemma {:induction false} InvFrom(s: State, acts: seq<Action>)
    requires Inv(s) && CollisionFree(After(Do, s, acts))
    ensures Inv(After(Do, s, acts))
    decreases |acts|
  {
    if acts != [] {
      var n := |acts| - 1;
      var before := After(Do, s, acts[..n]);
      SavedGrows(before, [acts[n]]);
      Snoc(Do, before, [], acts[n]);
      InvFrom(s, acts[..n]);
      InvKept(before, acts[n]);
    }
  }

  lemma AlwaysInv(hash: Bytes -> Name, disk: map<Name, Bytes>, acts: seq<Action>)
    requires CollisionFree(Reached(hash, disk, acts))
    ensures Inv(Reached(hash, disk, acts))
  {
    assert Inv(Start(hash, disk));
    InvFrom(Start(hash, disk), acts);
  }

  /** The cache holds the file's content, or some save of that name is still to assign it. */
  lemma CacheTruth(hash: Bytes -> Name, disk: map<Name, Bytes>, acts: seq<Action>, name: Name)
    requires CollisionFree(Reached(hash, disk, acts)) && name in Reached(hash, disk, acts).cache
    ensures var s := Reached(hash, disk, acts);
            && name in s.truth
            && (name in disk ==> s.truth[name] == disk[name])
            && (name !in disk ==> s.truth[name] in s.saved && hash(s.truth[name]) == name)
            && (s.cache[name] == s.truth[name] || exists t :: Unassigned(s, t, name))
  {
    AlwaysInv(hash, disk, acts);
    ParametersStay(hash, disk, acts);
  }

  lemma ParametersStay(hash: Bytes -> Name, disk: map<Name, Bytes>, acts: seq<Action>)
    ensures Reached(hash, disk, acts).hash == hash && Reached(hash, disk, acts).initial == disk
    decreases |acts|
  {
    if acts != [] {
      ParametersStay(hash, disk, acts[..|acts| - 1]);
    }
  }

  // ---------------------------------------------------------------- when a fetch is certain to be right

  /** A save of `name` that found no file and has not returned. */
  predicate Writes(hash: Bytes -> Name, pc: Pc, name: Name) {
    (pc.Opening? || StreamOpen(hash, pc, name)) && hash(pc.file) == name
  }

  /** The file is in the cache as it is, or on disk with no save of it under way. */
  ghost predicate Ready(s: State, name: Name) {
    && name in s.truth && name in s.disk
    && (if name in s.cache then s.cache[name] == s.truth[name]
        else forall t :: t in s.pcs ==> !Writes(s.hash, s.pcs[t], name))
  }

  /** A thread that answers for `name` answers with the file. */
  ghost predicate AnswersTruly(s: State, r: Tid, name: Name) {
    r in s.pcs && name in s.truth ==>
      match s.pcs[r]
      case Answering(n, bytes) => n == name ==> bytes == s.truth[name]
      case Got(n, bytes) => n == name ==> bytes == s.truth[name]
      case NotFound(n) => n != name
      case _ => true
  }

  /** Where a file exists, no save of it gets past the test for existence. */
  lemma NoNewWriter(s: State, a: Action, name: Name)
    requires Enabled(s, a) && name in s.disk && Writes(s.hash, NextPc(s, a), name)
    ensures a.t in s.pcs && Writes(s.hash, s.pcs[a.t], name)
  {}

  lemma NotPending(s: State, name: Name)
    requires Ready(s, name) && name !in s.cache
    ensures !Pending(s, name)
  {
    if t :| Unassigned(s, t, name) {
      assert Writes(s.hash, s.pcs[t], name);
    }
  }

  lemma ReadyKept(s: State, a: Action, name: Name)
    requires Inv(s) && CollisionFree(s) && Ready(s, name)
    ensures Ready(Do(s, a), name) && Do(s, a).truth[name] == s.truth[name]
  {
    if Enabled(s, a) {
      var s' := Do(s, a);
      StepGrows(s, a);
      CacheMoves(s, a);
      if a.t in s.pcs {
        assert ThreadOk(s, s.pcs[a.t]);
      }
      if name !in s.cache {
        NotPending(s, name);
        assert a.t in s.pcs ==> !Writes(s.hash, s.pcs[a.t], name);
        StillNoWriter(s, a, name);
      }
    }
  }

  lemma StillNoWriter(s: State, a: Action, name: Name)
    requires Enabled(s, a) && name in s.disk
    requires forall t :: t in s.pcs ==> !Writes(s.hash, s.pcs[t], name)
    ensures forall t :: t in Do(s, a).pcs ==> !Writes(s.hash, Do(s, a).pcs[t], name)
  {
    forall t | t in Do(s, a).pcs
      ensures !Writes(s.hash, Do(s, a).pcs[t], name)
    {
      if t == a.t {
        assert Do(s, a).pcs[t] == NextPc(s, a);
        if Writes(s.hash, NextPc(s, a), name) {
          NoNewWriter(s, a, name);
        }
      } else {
        assert Do(s, a).pcs[t] == s.pcs[t];
      }
    }
  }

  lemma AnswerKept(s: State, a: Action, r: Tid, name: Name)
    requires Inv(s) && CollisionFree(s) && Ready(s, name) && AnswersTruly(s, r, name)
    ensures AnswersTruly(Do(s, a), r, name)
  {
    ReadyKept(s, a, name);
    if Enabled(s, a) {
      if r == a.t {
        AnswersNext(s, a, name);
      } else {
        assert r in Do(s, a).pcs ==> Do(s, a).pcs[r] == s.pcs[r];
      }
    }
  }

  /** The acting thread's next place is no wrong answer. */
  lemma AnswersNext(s: State, a: Action, name: Name)
    requires Inv(s) && CollisionFree(s) && Ready(s, name) && AnswersTruly(s, a.t, name) && Enabled(s, a)
    ensures var pc := NextPc(s, a);
            && (pc.Answering? || pc.Got? ==> pc.name == name ==> pc.bytes == s.truth[name])
            && (pc.NotFound? ==> pc.name != name)
  {
    if a.t in s.pcs {
      assert ThreadOk(s, s.pcs[a.t]);
    }
    if name !in s.cache {
      NotPending(s, name);
    }
  }

  lemma {:induction false} CertainFrom(s: State, r: Tid, name: Name, more: seq<Action>)
    requires Inv(s) && Ready(s, name) && AnswersTruly(s, r, name)
    requires CollisionFree(After(Do, s, more))
    ensures var s' := After(Do, s, more);
            Ready(s', name) && s'.truth[name] == s.truth[name] && AnswersTruly(s', r, name)
    decreases |more|
  {
    if more != [] {
      var n := |more| - 1;
      var before := After(Do, s, more[..n]);
      SavedGrows(before, [more[n]]);
      Snoc(Do, before, [], more[n]);
      InvFrom(s, more[..n]);
      CertainFrom(s, r, name, more[..n]);
      AnswerKept(before, more[n], r, name);
      ReadyKept(before, more[n], name);
    }
  }

  lemma FetchChangesNothing(s: State, r: Tid, name: Name)
    requires Outside(s, r)
    ensures Do(s, Fetch(r, name)).saved == s.saved && Do(s, Fetch(r, name)).hash == s.hash
  {}

  lemma FetchStarts(s: State, r: Tid, name: Name)
    requires Inv(s) && CollisionFree(s) && Ready(s, name) && Outside(s, r)
    ensures var s' := Do(s, Fetch(r, name));
            Inv(s') && Ready(s', name) && s'.truth[name] == s.truth[name] && AnswersTruly(s', r, name)
  {
    InvKept(s, Fetch(r, name));
    ReadyKept(s, Fetch(r, name), name);
  }

  /** A fetch that starts when the file is ready returns the file, whatever runs beside it. */
  lemma ReadySuffices(hash: Bytes -> Name, disk: map<Name, Bytes>, acts: seq<Action>, r: Tid, name: Name,
                      more: seq<Action>, bytes: Bytes)
    requires Ready(Reached(hash, disk, acts), name) && Outside(Reached(hash, disk, acts), r)
    requires var s' := Reached(hash, disk, acts + [Fetch(r, name)] + more);
             CollisionFree(s') && r in s'.pcs && (s'.pcs[r] == Got(name, bytes) || s'.pcs[r] == NotFound(name))
    ensures Reached(hash, disk, acts + [Fetch(r, name)] + more).pcs[r] == Got(name, bytes)
    ensures bytes == Reached(hash, disk, acts).truth[name]
  {
    var s := Reached(hash, disk, acts);
    Snoc(Do, Start(hash, disk), acts, Fetch(r, name));
    Concat(Do, Start(hash, disk), acts + [Fetch(r, name)], more);
    SavedGrows(Do(s, Fetch(r, name)), more);
    FetchChangesNothing(s, r, name);
    AlwaysInv(hash, disk, acts);
    FetchStarts(s, r, name);
    CertainFrom(Do(s, Fetch(r, name)), r, name, more);
  }

  /** A save that wrote the file itself leaves it ready for ever. */
  lemma SavedIsReady(hash: Bytes -> Name, disk: map<Name, Bytes>, acts: seq<Action>, t: Tid, file: Bytes,
                     more: seq<Action>)
    requires CollisionFree(Reached(hash, disk, acts + more))
    requires t in Reached(hash, disk, acts).pcs && Reached(hash, disk, acts).pcs[t] == Saved(file, true)
    ensures Ready(Reached(hash, disk, acts + more), hash(file))
    ensures Reached(hash, disk, acts + more).truth[hash(file)] == file
  {
    var s := Reached(hash, disk, acts);
    Concat(Do, Start(hash, disk), acts, more);
    SavedGrows(s, more);
    AlwaysInv(hash, disk, acts);
    ParametersStay(hash, disk, acts);
    assert ThreadOk(s, s.pcs[t]);
    CertainFrom(s, t, hash(file), more);
  }

  /** Save, then fetch: once a SaveFile that wrote the file itself has returned, every fetch that starts
      later returns exactly those bytes, in every interleaving. */
  lemma RoundTrip(hash: Bytes -> Name, disk: map<Name, Bytes>, acts: seq<Action>, t: Tid, file: Bytes,
                  between: seq<Action>, r: Tid, more: seq<Action>, bytes: Bytes)
    requires t in Reached(hash, disk, acts).pcs && Reached(hash, disk, acts).pcs[t] == Saved(file, true)
    requires Outside(Reached(hash, disk, acts + between), r)
    requires var s' := Reached(hash, disk, acts + between + [Fetch(r, hash(file))] + more);
             && CollisionFree(s') && r in s'.pcs
             && (s'.pcs[r] == Got(hash(file), bytes) || s'.pcs[r] == NotFound(hash(file)))
    ensures Reached(hash, disk, acts + between + [Fetch(r, hash(file))] + more).pcs[r] == Got(hash(file), file)
  {
    var now := acts + between;
    Snoc(Do, Start(hash, disk), now, Fetch(r, hash(file)));
    Concat(Do, Start(hash, disk), now + [Fetch(r, hash(file))], more);
    SavedGrows(Reached(hash, disk, now + [Fetch(r, hash(file))]), more);
    SavedGrows(Reached(hash, disk, now), [Fetch(r, hash(file))]);
    Snoc(Do, Reached(hash, disk, now), [], Fetch(r, hash(file)));
    SavedIsReady(hash, disk, acts, t, file, between);
    ReadySuffices(hash, disk, now, r, hash(file), more, bytes);
  }
}
