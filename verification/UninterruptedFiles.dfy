/** The image store's methods, run by one thread with nobody in between, from any state in which nobody holds the
    mutex or writes the file: what the class `FileManagers.FileManager` says of them is what their steps do. */
module UninterruptedFiles {
  import opened Runs
  import opened FileManagerSteps

  /** `s` with thread `t` at `pc`. */
  function Placed(s: State, t: Tid, pc: Pc): State {
    s.(pcs := s.pcs[t := pc])
  }

  lemma PlacedAgain(s: State, t: Tid, pc: Pc, next: Pc)
    ensures Placed(s, t, pc).pcs[t := next] == Placed(s, t, next).pcs
  {}

  lemma Steps(s: State, t: Tid, pc: Pc, s': State, next: Pc)
    requires Enabled(Placed(s, t, pc), Step(t)) && s'.pcs == s.pcs
    requires Effect(Placed(s, t, pc), Step(t)) == Placed(s', t, pc) && NextPc(Placed(s, t, pc), Step(t)) == next
    ensures Do(Placed(s, t, pc), Step(t)) == Placed(s', t, next)
  {
    PlacedAgain(s', t, pc, next);
  }

  // ---------------------------------------------------------------- SaveFile, statement by statement

  lemma Saves(s: State, t: Tid, file: Bytes)
    requires Outside(s, t)
    ensures Do(s, Save(t, file)) == Placed(s.(saved := s.saved + {file}), t, Checking(file))
  {}

  lemma Checks(s: State, t: Tid, file: Bytes)
    ensures Do(Placed(s, t, Checking(file)), Step(t)) ==
            Placed(s, t, if s.hash(file) in s.disk then Saved(file, false) else Opening(file))
  {
    Steps(s, t, Checking(file), s, if s.hash(file) in s.disk then Saved(file, false) else Opening(file));
  }

  /** The state after a new file has been opened. */
  function Opened(s: State, file: Bytes): State {
    s.(disk := s.disk[s.hash(file) := file],
       opens := s.opens[s.hash(file) := Opens(s, s.hash(file)) + 1],
       truth := if s.hash(file) in s.truth then s.truth else s.truth[s.hash(file) := file])
  }

  lemma OpensNew(s: State, t: Tid, file: Bytes)
    requires s.hash(file) !in s.disk
    ensures Do(Placed(s, t, Opening(file)), Step(t)) == Placed(Opened(s, file), t, Writing(file))
  {
    Steps(s, t, Opening(file), Opened(s, file), Writing(file));
  }

  lemma Locks(s: State, t: Tid, file: Bytes)
    requires s.owner.Free?
    ensures Do(Placed(s, t, Writing(file)), Step(t)) == Placed(s.(owner := By(t)), t, Assigning(file))
  {
    Steps(s, t, Writing(file), s.(owner := By(t)), Assigning(file));
  }

  lemma Assigns(s: State, t: Tid, file: Bytes)
    ensures Do(Placed(s, t, Assigning(file)), Step(t)) ==
            Placed(s.(cache := s.cache[s.hash(file) := file]), t, Assigned(file))
  {
    Steps(s, t, Assigning(file), s.(cache := s.cache[s.hash(file) := file]), Assigned(file));
  }

  lemma Unlocks(s: State, t: Tid, file: Bytes)
    ensures Do(Placed(s, t, Assigned(file)), Step(t)) == Placed(s.(owner := Free), t, Closing(file))
  {
    Steps(s, t, Assigned(file), s.(owner := Free), Closing(file));
  }

  lemma Closes(s: State, t: Tid, file: Bytes)
    ensures Do(Placed(s, t, Closing(file)), Step(t)) ==
            Placed(s.(disk := s.disk[s.hash(file) := file]), t, Saved(file, true))
  {
    Steps(s, t, Closing(file), s.(disk := s.disk[s.hash(file) := file]), Saved(file, true));
  }

  // ---------------------------------------------------------------- SaveFile

  /** Two statements, three states. */
  lemma Two(s: State, a: Action, s1: State, b: Action, s2: State)
    requires Do(s, a) == s1 && Do(s1, b) == s2
    ensures After(Do, s, [a, b]) == s2
  {
    Path(Do, [s, s1, s2], [a, b]);
  }

  lemma Three(s: State, a: Action, s1: State, b: Action, s2: State, c: Action, s3: State)
    requires Do(s, a) == s1 && Do(s1, b) == s2 && Do(s2, c) == s3
    ensures After(Do, s, [a, b, c]) == s3
  {
    Path(Do, [s, s1, s2, s3], [a, b, c]);
  }

  /** A file that exists is left alone, and its name returned. */
  lemma SavesNothing(s: State, t: Tid, file: Bytes)
    requires Outside(s, t) && s.hash(file) in s.disk
    ensures After(Do, s, [Save(t, file), Step(t)]) ==
            Placed(s.(saved := s.saved + {file}), t, Saved(file, false))
  {
    var s1 := s.(saved := s.saved + {file});
    Saves(s, t, file);
    Checks(s1, t, file);
    Two(s, Save(t, file), Placed(s1, t, Checking(file)), Step(t), Placed(s1, t, Saved(file, false)));
  }

  /** If the output stream cannot be opened, nothing is saved. */
  lemma SaveFails(s: State, t: Tid, file: Bytes)
    requires Outside(s, t) && s.hash(file) !in s.disk
    ensures After(Do, s, [Save(t, file), Step(t), FailToOpen(t)]) ==
            Placed(s.(saved := s.saved + {file}), t, SaveFailed)
  {
    var s1 := s.(saved := s.saved + {file});
    Saves(s, t, file);
    Checks(s1, t, file);
    PlacedAgain(s1, t, Opening(file), SaveFailed);
    Three(s, Save(t, file), Placed(s1, t, Checking(file)), Step(t), Placed(s1, t, Opening(file)),
          FailToOpen(t), Placed(s1, t, SaveFailed));
  }

  lemma Begins(s: State, t: Tid, file: Bytes)
    requires Outside(s, t) && s.hash(file) !in s.disk
    ensures After(Do, s, [Save(t, file), Step(t), Step(t)]) ==
            Placed(Opened(s.(saved := s.saved + {file}), file), t, Writing(file))
  {
    var s1 := s.(saved := s.saved + {file});
    Saves(s, t, file);
    Checks(s1, t, file);
    OpensNew(s1, t, file);
    Three(s, Save(t, file), Placed(s1, t, Checking(file)), Step(t), Placed(s1, t, Opening(file)),
          Step(t), Placed(Opened(s1, file), t, Writing(file)));
  }

  lemma Caches(s: State, t: Tid, file: Bytes)
    requires s.owner.Free?
    ensures After(Do, Placed(s, t, Writing(file)), [Step(t), Step(t), Step(t)]) ==
            Placed(s.(cache := s.cache[s.hash(file) := file]), t, Closing(file))
  {
    var held := s.(owner := By(t));
    var cached := held.(cache := s.cache[s.hash(file) := file]);
    Locks(s, t, file);
    Assigns(held, t, file);
    Unlocks(cached, t, file);
    Three(Placed(s, t, Writing(file)), Step(t), Placed(held, t, Assigning(file)), Step(t),
          Placed(cached, t, Assigned(file)), Step(t), Placed(cached.(owner := Free), t, Closing(file)));
  }

  /** The state after a save of a new file, but for its thread. */
  function Stored(s: State, file: Bytes): State {
    Opened(s.(saved := s.saved + {file}), file).(cache := s.cache[s.hash(file) := file])
  }

  lemma OpensAndCaches(s: State, t: Tid, file: Bytes)
    requires Outside(s, t) && s.owner.Free? && s.hash(file) !in s.disk
    ensures After(Do, s, [Save(t, file), Step(t), Step(t)] + [Step(t), Step(t), Step(t)]) ==
            Placed(Stored(s, file), t, Closing(file))
  {
    Begins(s, t, file);
    Caches(Opened(s.(saved := s.saved + {file}), file), t, file);
    Concat(Do, s, [Save(t, file), Step(t), Step(t)], [Step(t), Step(t), Step(t)]);
  }

  lemma ClosesStored(s: State, t: Tid, file: Bytes)
    ensures Do(Placed(Stored(s, file), t, Closing(file)), Step(t)) == Placed(Stored(s, file), t, Saved(file, true))
  {
    Closes(Stored(s, file), t, file);
    assert Stored(s, file).disk[s.hash(file) := file] == Stored(s, file).disk;
  }

  /** A new file is on disk and in the cache when its name is returned. */
  lemma SavesNew(s: State, t: Tid, file: Bytes) returns (s': State)
    requires Outside(s, t) && s.owner.Free? && s.hash(file) !in s.disk
    ensures s' == After(Do, s, [Save(t, file), Step(t), Step(t)] + [Step(t), Step(t), Step(t)] + [Step(t)])
    ensures s'.disk == s.disk[s.hash(file) := file] && s'.cache == s.cache[s.hash(file) := file]
    ensures s'.owner.Free? && s'.pcs == s.pcs[t := Saved(file, true)]
  {
    s' := Placed(Stored(s, file), t, Saved(file, true));
    OpensAndCaches(s, t, file);
    ClosesStored(s, t, file);
    Snoc(Do, s, [Save(t, file), Step(t), Step(t)] + [Step(t), Step(t), Step(t)], Step(t));
  }

  // ---------------------------------------------------------------- GetFile, statement by statement

  lemma Fetches(s: State, t: Tid, name: Name)
    requires Outside(s, t)
    ensures Do(s, Fetch(t, name)) == Placed(s, t, Wanting(name))
  {}

  lemma Wants(s: State, t: Tid, name: Name)
    requires s.owner.Free?
    ensures Do(Placed(s, t, Wanting(name)), Step(t)) == Placed(s.(owner := By(t)), t, LookingUp(name))
  {
    Steps(s, t, Wanting(name), s.(owner := By(t)), LookingUp(name));
  }

  lemma LooksUp(s: State, t: Tid, name: Name)
    ensures Do(Placed(s, t, LookingUp(name)), Step(t)) ==
            Placed(s, t, if name in s.cache then Answering(name, s.cache[name]) else Missed(name))
  {
    Steps(s, t, LookingUp(name), s, if name in s.cache then Answering(name, s.cache[name]) else Missed(name));
  }

  lemma LetsGo(s: State, t: Tid, name: Name)
    ensures Do(Placed(s, t, Missed(name)), Step(t)) == Placed(s.(owner := Free), t, OpeningRead(name))
  {
    Steps(s, t, Missed(name), s.(owner := Free), OpeningRead(name));
  }

  lemma Answers(s: State, t: Tid, name: Name, bytes: Bytes)
    ensures Do(Placed(s, t, Answering(name, bytes)), Step(t)) == Placed(s.(owner := Free), t, Got(name, bytes))
  {
    Steps(s, t, Answering(name, bytes), s.(owner := Free), Got(name, bytes));
  }

  lemma LocksAgain(s: State, t: Tid, name: Name, bytes: Bytes)
    requires s.owner.Free?
    ensures Do(Placed(s, t, Loaded(name, bytes)), Step(t)) == Placed(s.(owner := By(t)), t, Rechecking(name, bytes))
  {
    Steps(s, t, Loaded(name, bytes), s.(owner := By(t)), Rechecking(name, bytes));
  }

  /** Somebody else's entry stays and is returned. */
  lemma Rechecks(s: State, t: Tid, name: Name, bytes: Bytes)
    ensures Do(Placed(s, t, Rechecking(name, bytes)), Step(t)) ==
            if name in s.cache then Placed(s, t, Answering(name, s.cache[name]))
            else Placed(s.(cache := s.cache[name := bytes]), t, Answering(name, bytes))
  {
    if name in s.cache {
      Steps(s, t, Rechecking(name, bytes), s, Answering(name, s.cache[name]));
    } else {
      Steps(s, t, Rechecking(name, bytes), s.(cache := s.cache[name := bytes]), Answering(name, bytes));
    }
  }

  // ---------------------------------------------------------------- GetFile

  lemma Arrives(s: State, t: Tid, name: Name)
    requires Outside(s, t) && s.owner.Free?
    ensures After(Do, s, [Fetch(t, name), Step(t)]) == Placed(s.(owner := By(t)), t, LookingUp(name))
  {
    Fetches(s, t, name);
    Wants(s, t, name);
    Two(s, Fetch(t, name), Placed(s, t, Wanting(name)), Step(t), Placed(s.(owner := By(t)), t, LookingUp(name)));
  }

  /** A cached file is returned from the cache. */
  lemma FetchesCached(s: State, t: Tid, name: Name)
    requires Outside(s, t) && s.owner.Free? && name in s.cache
    ensures After(Do, s, [Fetch(t, name), Step(t)] + [Step(t), Step(t)]) == Placed(s, t, Got(name, s.cache[name]))
  {
    var held := s.(owner := By(t));
    Arrives(s, t, name);
    LooksUp(held, t, name);
    Answers(held, t, name, s.cache[name]);
    Two(Placed(held, t, LookingUp(name)), Step(t), Placed(held, t, Answering(name, s.cache[name])),
        Step(t), Placed(s, t, Got(name, s.cache[name])));
    Concat(Do, s, [Fetch(t, name), Step(t)], [Step(t), Step(t)]);
  }

  lemma Misses(s: State, t: Tid, name: Name)
    requires Outside(s, t) && s.owner.Free? && name !in s.cache
    ensures After(Do, s, [Fetch(t, name), Step(t)] + [Step(t), Step(t)]) == Placed(s, t, OpeningRead(name))
  {
    var held := s.(owner := By(t));
    Arrives(s, t, name);
    LooksUp(held, t, name);
    LetsGo(held, t, name);
    Two(Placed(held, t, LookingUp(name)), Step(t), Placed(held, t, Missed(name)),
        Step(t), Placed(s, t, OpeningRead(name)));
    Concat(Do, s, [Fetch(t, name), Step(t)], [Step(t), Step(t)]);
  }

  /** A file that is neither cached nor on disk is not found. */
  lemma FetchesNothing(s: State, t: Tid, name: Name)
    requires Outside(s, t) && s.owner.Free? && name !in s.cache && name !in s.disk
    ensures After(Do, s, [Fetch(t, name), Step(t)] + [Step(t), Step(t)] + [Step(t)]) == Placed(s, t, NotFound(name))
  {
    Misses(s, t, name);
    Steps(s, t, OpeningRead(name), s, NotFound(name));
    Snoc(Do, s, [Fetch(t, name), Step(t)] + [Step(t), Step(t)], Step(t));
  }

  lemma Loads(s: State, t: Tid, name: Name)
    requires name in s.disk && Quiet(Placed(s, t, OpeningRead(name)), name)
    ensures After(Do, Placed(s, t, OpeningRead(name)), [Step(t), Read(t, s.disk[name])]) ==
            Placed(s, t, Loaded(name, s.disk[name]))
  {
    var reading := Reading(name, true, Opens(s, name));
    Steps(s, t, OpeningRead(name), s, reading);
    PlacedAgain(s, t, reading, Loaded(name, s.disk[name]));
    Two(Placed(s, t, OpeningRead(name)), Step(t), Placed(s, t, reading),
        Read(t, s.disk[name]), Placed(s, t, Loaded(name, s.disk[name])));
  }

  lemma Keeps(s: State, t: Tid, name: Name, bytes: Bytes)
    requires s.owner.Free? && name !in s.cache
    ensures After(Do, Placed(s, t, Loaded(name, bytes)), [Step(t), Step(t), Step(t)]) ==
            Placed(s.(cache := s.cache[name := bytes]), t, Got(name, bytes))
  {
    var held := s.(owner := By(t));
    var cached := held.(cache := s.cache[name := bytes]);
    LocksAgain(s, t, name, bytes);
    Rechecks(held, t, name, bytes);
    Answers(cached, t, name, bytes);
    Three(Placed(s, t, Loaded(name, bytes)), Step(t), Placed(held, t, Rechecking(name, bytes)), Step(t),
          Placed(cached, t, Answering(name, bytes)), Step(t), Placed(cached.(owner := Free), t, Got(name, bytes)));
  }

  /** A file that nobody writes and that is not cached is read from the disk, cached and returned. */
  lemma FetchesFromDisk(s: State, t: Tid, name: Name)
    requires Outside(s, t) && s.owner.Free? && name !in s.cache && name in s.disk
    requires forall u :: u in s.pcs ==> !StreamOpen(s.hash, s.pcs[u], name)
    ensures After(Do, s, [Fetch(t, name), Step(t)] + [Step(t), Step(t)] + [Step(t), Read(t, s.disk[name])]
                         + [Step(t), Step(t), Step(t)]) ==
            Placed(s.(cache := s.cache[name := s.disk[name]]), t, Got(name, s.disk[name]))
  {
    var first, second := [Fetch(t, name), Step(t)] + [Step(t), Step(t)], [Step(t), Read(t, s.disk[name])];
    Misses(s, t, name);
    Loads(s, t, name);
    Keeps(s, t, name, s.disk[name]);
    Concat(Do, s, first, second);
    Concat(Do, s, first + second, [Step(t), Step(t), Step(t)]);
  }
}
