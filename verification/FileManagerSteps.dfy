/** The image store: files on disk named by the hash of their content, and an in-memory cache under a
    mutex that is not held during disk access.  Any number of threads save and fetch.

    While a file has an open output stream a reader may see anything; a stream is closed after its saver
    has assigned the cache and released the mutex. */
module FileManagerSteps {
  import opened Runs

  type Bytes = string
  type Name = string
  type Tid = nat

  datatype Pc =
    // SaveFile
    | Checking(file: Bytes)   // about to test whether the file exists
    | Opening(file: Bytes)    // about to open the output stream
    | Writing(file: Bytes)    // stream open, cache not assigned, wants the mutex
    | Assigning(file: Bytes)  // holds it, about to assign
    | Assigned(file: Bytes)   // holds it, about to release it
    | Closing(file: Bytes)    // stream about to be closed
    | Saved(file: Bytes, wrote: bool)
    | SaveFailed
    // GetFile and AddFileToCache, which differ in what they return only
    | Wanting(name: Name)     // wants the mutex
    | LookingUp(name: Name)   // holds it
    | Missed(name: Name)      // holds it, about to release it
    | OpeningRead(name: Name)
    | Reading(name: Name, clean: bool, seen: nat)
    | Loaded(name: Name, bytes: Bytes)      // wants the mutex
    | Rechecking(name: Name, bytes: Bytes)  // holds it
    | Answering(name: Name, bytes: Bytes)   // holds it, about to return
    | Got(name: Name, bytes: Bytes)
    | NotFound(name: Name)

  datatype Owner = Free | By(t: Tid)

  /** `disk` is what a read returns when nobody writes; `opens` counts how often an output stream was opened.
      History: `initial` is the disk at start, `truth` a file's full content, `saved` all contents passed
      to SaveFile. */
  datatype State = State(
    hash: Bytes -> Name,
    initial: map<Name, Bytes>,
    disk: map<Name, Bytes>,
    opens: map<Name, nat>,
    cache: map<Name, Bytes>,
    owner: Owner,
    pcs: map<Tid, Pc>,
    truth: map<Name, Bytes>,
    saved: set<Bytes>)

  datatype Action =
    | Save(t: Tid, file: Bytes)
    | Fetch(t: Tid, name: Name)
    | Step(t: Tid)
    | FailToOpen(t: Tid)            // a saver cannot open the output stream
    | Read(t: Tid, bytes: Bytes)    // a reader has read the whole file

  /** The acting thread moves on, and with it the files. */
  function Do(s: State, a: Action): State {
    if Enabled(s, a) then Effect(s, a).(pcs := s.pcs[a.t := NextPc(s, a)]) else s
  }

  predicate Enabled(s: State, a: Action) {
    match a
    case Save(t, _) => Outside(s, t)
    case Fetch(t, _) => Outside(s, t)
    case Step(t) => t in s.pcs && !Outside(s, t) && !s.pcs[t].Reading? && (WantsMutex(s.pcs[t]) ==> s.owner.Free?)
    case FailToOpen(t) => t in s.pcs && s.pcs[t].Opening?
    case Read(t, bytes) => t in s.pcs && s.pcs[t].Reading? && MayRead(s, s.pcs[t], bytes)
  }

  predicate WantsMutex(pc: Pc) {
    pc.Writing? || pc.Wanting? || pc.Loaded?
  }

  predicate Outside(s: State, t: Tid) {
    t !in s.pcs || s.pcs[t].Saved? || s.pcs[t].SaveFailed? || s.pcs[t].Got? || s.pcs[t].NotFound?
  }

  /** An output stream is open on `name`. */
  predicate StreamOpen(hash: Bytes -> Name, pc: Pc, name: Name) {
    (pc.Writing? || pc.Assigning? || pc.Assigned? || pc.Closing?) && hash(pc.file) == name
  }

  predicate Quiet(s: State, name: Name) {
    forall t :: t in s.pcs ==> !StreamOpen(s.hash, s.pcs[t], name)
  }

  function Opens(s: State, name: Name): nat {
    if name in s.opens then s.opens[name] else 0
  }

  /** A read that no writer disturbed returns the file; any other may return anything. */
  predicate MayRead(s: State, pc: Pc, bytes: Bytes)
    requires pc.Reading?
  {
    pc.clean && Opens(s, pc.name) == pc.seen && pc.name in s.disk ==> bytes == s.disk[pc.name]
  }

  function NextPc(s: State, a: Action): Pc
    requires Enabled(s, a)
  {
    match a
    case Save(_, file) => Checking(file)
    case Fetch(_, name) => Wanting(name)
    case FailToOpen(_) => SaveFailed
    case Read(t, bytes) => Loaded(s.pcs[t].name, bytes)
    case Step(t) =>
      match s.pcs[t]
      case Checking(file) => if s.hash(file) in s.disk then Saved(file, false) else Opening(file)
      case Opening(file) => Writing(file)
      case Writing(file) => Assigning(file)
      case Assigning(file) => Assigned(file)
      case Assigned(file) => Closing(file)
      case Closing(file) => Saved(file, true)
      case Wanting(name) => LookingUp(name)
      case LookingUp(name) => if name in s.cache then Answering(name, s.cache[name]) else Missed(name)
      case Missed(name) => OpeningRead(name)
      case OpeningRead(name) =>
        if name in s.disk then Reading(name, Quiet(s, name), Opens(s, name)) else NotFound(name)
      case Loaded(name, bytes) => Rechecking(name, bytes)
      case Rechecking(name, bytes) => Answering(name, if name in s.cache then s.cache[name] else bytes)
      case Answering(name, bytes) => Got(name, bytes)
      case pc => pc
  }

  function Effect(s: State, a: Action): (s': State)
    requires Enabled(s, a)
    ensures s'.pcs == s.pcs && s'.hash == s.hash && s'.initial == s.initial
    ensures s.saved <= s'.saved && s.disk.Keys <= s'.disk.Keys && s.cache.Keys <= s'.cache.Keys
  {
    if a.Save? then s.(saved := s.saved + {a.file})
    else if !a.Step? then s
    else if WantsMutex(s.pcs[a.t]) then s.(owner := By(a.t))
    else if Unlocks(s.pcs[a.t]) then s.(owner := Free)
    else
      match s.pcs[a.t]
      case Opening(file) =>
        var name := s.hash(file);
        s.(disk := if name in s.disk then s.disk else s.disk[name := file],
           opens := s.opens[name := Opens(s, name) + 1],
           truth := if name in s.truth then s.truth else s.truth[name := file])
      case Assigning(file) => s.(cache := s.cache[s.hash(file) := file])
      case Closing(file) => s.(disk := s.disk[s.hash(file) := file])
      case Rechecking(name, bytes) => s.(cache := if name in s.cache then s.cache else s.cache[name := bytes])
      case _ => s
  }

  predicate Unlocks(pc: Pc) {
    pc.Assigned? || pc.Missed? || pc.Answering?
  }

  ghost function Start(hash: Bytes -> Name, disk: map<Name, Bytes>): State {
    State(hash, disk, disk, map[], map[], Free, map[], disk, {})
  }

  ghost function Reached(hash: Bytes -> Name, disk: map<Name, Bytes>, acts: seq<Action>): State {
    After(Do, Start(hash, disk), acts)
  }
}
