/** The mutexes of the registry: the storage mutex, one instances mutex for every user and one mutex for every
    session.  Every operation takes them in that order and gives up what it has before it goes up again,
    so any number of operations can run at once without a deadlock. */
module LockOrder {
  import opened Runs

  type Uuid = string

  datatype Lock = Storage | Instances(uuid: Uuid) | Instance(uuid: Uuid, session: nat)

  function Level(lock: Lock): nat {
    match lock
    case Storage => 0
    case Instances(_) => 1
    case Instance(_, _) => 2
  }

  /** `AcquireBoth` is `std::lock`: it waits without keeping either mutex until it gets both. */
  datatype Op = Acquire(lock: Lock) | AcquireBoth(lock: Lock, other: Lock) | Release(lock: Lock)

  // ---------------------------------------------------------------- what each operation locks

  /** `SendEvent` on the sessions in `queued`, which find the state not IDLE; the others take no mutex. */
  function Sends(uuid: Uuid, queued: seq<nat>): seq<Op> {
    if queued == [] then []
    else [Acquire(Instance(uuid, queued[0])), Release(Instance(uuid, queued[0]))] + Sends(uuid, queued[1..])
  }

  /** Elements move down one place, as when an element of the vector is erased: move assignments. */
  function Shifts(uuid: Uuid, from: nat, count: nat): seq<Op>
    decreases count
  {
    if count == 0 then []
    else [AcquireBoth(Instance(uuid, from), Instance(uuid, from + 1)),
          Release(Instance(uuid, from + 1)), Release(Instance(uuid, from))] + Shifts(uuid, from + 1, count - 1)
  }

  /** The program of one operation under a user's instances mutex. */
  function UnderInstances(uuid: Uuid, body: seq<Op>): seq<Op> {
    [Acquire(Instances(uuid))] + body + [Release(Instances(uuid))]
  }

  function UnderStorage(body: seq<Op>): seq<Op> {
    [Acquire(Storage)] + body + [Release(Storage)]
  }

  /** A user and those of his sessions that queue the event. */
  datatype Audience = Audience(uuid: Uuid, queued: seq<nat>)

  function Posts(users: seq<Audience>): seq<Op> {
    if users == [] then []
    else UnderInstances(users[0].uuid, Sends(users[0].uuid, users[0].queued)) + Posts(users[1..])
  }

  /** Operations, with what they find: the users in the map, the sessions that queue, how many elements an
      erasure moves from where, the elements that a growing vector moves. */
  datatype Operation =
    | PostToUsers(users: seq<Audience>)        // PostToAllUsers, PostEventToUser, PostEventToInstance
    | LookUpToken(uuids: seq<Uuid>)            // GetUuidByAccessToken
    | Login(uuid: Uuid, from: nat, count: nat, moved: seq<nat>)
    | Subscribe(uuid: Uuid, from: nat, count: nat, moved: seq<nat>)
    | SubscribeUnknown                         // OnNewEventsSubscriber without an owner
    | Completion(uuid: Uuid, session: nat)
    | Failure(uuid: Uuid, session: nat, from: nat, count: nat, last: bool)

  function LookUps(users: seq<Uuid>): seq<Op> {
    if users == [] then [] else UnderInstances(users[0], []) + LookUps(users[1..])
  }

  function LoginProgram(uuid: Uuid, from: nat, count: nat, moved: seq<nat>): seq<Op> {
    UnderStorage(UnderInstances(uuid, Shifts(uuid, from, count) + Sends(uuid, moved)))
  }

  function Program(op: Operation): seq<Op> {
    match op
    case PostToUsers(users) => UnderStorage(Posts(users))
    case LookUpToken(users) => UnderStorage(LookUps(users))
    case Login(uuid, from, count, moved) => LoginProgram(uuid, from, count, moved)
    case Subscribe(uuid, from, count, moved) => UnderStorage([]) + LoginProgram(uuid, from, count, moved)
    case SubscribeUnknown => UnderStorage([])
    case Completion(uuid, session) => Sends(uuid, [session])
    case Failure(uuid, session, from, count, last) =>
      Sends(uuid, [session]) + UnderInstances(uuid, Shifts(uuid, from, count))
      + (if last then UnderStorage([]) else [])
  }

  // ---------------------------------------------------------------- the discipline

  predicate Above(lock: Lock, held: set<Lock>) {
    forall h :: h in held ==> Level(h) < Level(lock)
  }

  /** From `held`, the program acquires upwards only, releases what it holds, and ends with `end`. */
  ghost predicate Disciplined(held: set<Lock>, program: seq<Op>, end: set<Lock>)
    decreases |program|
  {
    if program == [] then held == end
    else
      match program[0]
      case Acquire(lock) => Above(lock, held) && Disciplined(held + {lock}, program[1..], end)
      case AcquireBoth(lock, other) =>
        && lock != other && Level(lock) == Level(other)
        && Above(lock, held) && Disciplined(held + {lock, other}, program[1..], end)
      case Release(lock) => lock in held && Disciplined(held - {lock}, program[1..], end)
  }

  lemma {:induction false} Sequence(held: set<Lock>, one: seq<Op>, middle: set<Lock>, two: seq<Op>, end: set<Lock>)
    requires Disciplined(held, one, middle) && Disciplined(middle, two, end)
    ensures Disciplined(held, one + two, end)
    decreases |one|
  {
    if one == [] {
      assert one + two == two;
    } else {
      assert (one + two)[1..] == one[1..] + two;
      match one[0]
      case Acquire(lock) => Sequence(held + {lock}, one[1..], middle, two, end);
      case AcquireBoth(lock, other) => Sequence(held + {lock, other}, one[1..], middle, two, end);
      case Release(lock) => Sequence(held - {lock}, one[1..], middle, two, end);
    }
  }

  lemma Bracket(lock: Lock, held: set<Lock>, body: seq<Op>)
    requires Above(lock, held) && Disciplined(held + {lock}, body, held + {lock})
    ensures Disciplined(held, [Acquire(lock)] + body + [Release(lock)], held)
  {
    assert held + {lock} - {lock} == held;
    assert Disciplined(held + {lock}, [Release(lock)], held);
    Sequence(held + {lock}, body, held + {lock}, [Release(lock)], held);
    assert ([Acquire(lock)] + body + [Release(lock)])[1..] == body + [Release(lock)];
  }

  lemma {:induction false} SendsDisciplined(uuid: Uuid, queued: seq<nat>, held: set<Lock>)
    requires Above(Instance(uuid, 0), held)
    ensures Disciplined(held, Sends(uuid, queued), held)
  {
    if queued != [] {
      var lock := Instance(uuid, queued[0]);
      assert Above(lock, held);
      Bracket(lock, held, []);
      assert [Acquire(lock)] + [] + [Release(lock)] == [Acquire(lock), Release(lock)];
      SendsDisciplined(uuid, queued[1..], held);
      Sequence(held, [Acquire(lock), Release(lock)], held, Sends(uuid, queued[1..]), held);
    }
  }

  lemma ShiftDisciplined(uuid: Uuid, from: nat, held: set<Lock>)
    requires Above(Instance(uuid, 0), held)
    ensures Disciplined(held, [AcquireBoth(Instance(uuid, from), Instance(uuid, from + 1)),
                               Release(Instance(uuid, from + 1)), Release(Instance(uuid, from))], held)
  {
    var one, two := Instance(uuid, from), Instance(uuid, from + 1);
    assert held + {one, two} - {two} == held + {one} && held + {one} - {one} == held;
    assert [AcquireBoth(one, two), Release(two), Release(one)][1..] == [Release(two), Release(one)];
    assert [Release(two), Release(one)][1..] == [Release(one)] && [Release(one)][1..] == [];
    assert Disciplined(held, [], held);
    assert Disciplined(held + {one}, [Release(one)], held);
    assert Disciplined(held + {one, two}, [Release(two), Release(one)], held);
  }

  lemma {:induction false} ShiftsDisciplined(uuid: Uuid, from: nat, count: nat, held: set<Lock>)
    requires Above(Instance(uuid, 0), held)
    ensures Disciplined(held, Shifts(uuid, from, count), held)
    decreases count
  {
    if count > 0 {
      ShiftDisciplined(uuid, from, held);
      ShiftsDisciplined(uuid, from + 1, count - 1, held);
      Sequence(held, [AcquireBoth(Instance(uuid, from), Instance(uuid, from + 1)),
                      Release(Instance(uuid, from + 1)), Release(Instance(uuid, from))], held,
               Shifts(uuid, from + 1, count - 1), held);
    }
  }

  lemma {:induction false} PostsDisciplined(users: seq<Audience>)
    ensures Disciplined({Storage}, Posts(users), {Storage})
  {
    if users != [] {
      SendsDisciplined(users[0].uuid, users[0].queued, {Storage} + {Instances(users[0].uuid)});
      Bracket(Instances(users[0].uuid), {Storage}, Sends(users[0].uuid, users[0].queued));
      PostsDisciplined(users[1..]);
      Sequence({Storage}, UnderInstances(users[0].uuid, Sends(users[0].uuid, users[0].queued)), {Storage},
               Posts(users[1..]), {Storage});
    }
  }

  lemma {:induction false} LookUpsDisciplined(users: seq<Uuid>)
    ensures Disciplined({Storage}, LookUps(users), {Storage})
  {
    if users != [] {
      Bracket(Instances(users[0]), {Storage}, []);
      LookUpsDisciplined(users[1..]);
      Sequence({Storage}, UnderInstances(users[0], []), {Storage}, LookUps(users[1..]), {Storage});
    }
  }

  lemma LoginDisciplined(uuid: Uuid, from: nat, count: nat, moved: seq<nat>)
    ensures Disciplined({}, LoginProgram(uuid, from, count, moved), {})
  {
    var held := {Storage} + {Instances(uuid)};
    ShiftsDisciplined(uuid, from, count, held);
    SendsDisciplined(uuid, moved, held);
    Sequence(held, Shifts(uuid, from, count), held, Sends(uuid, moved), held);
    Bracket(Instances(uuid), {Storage}, Shifts(uuid, from, count) + Sends(uuid, moved));
    Storages(UnderInstances(uuid, Shifts(uuid, from, count) + Sends(uuid, moved)));
  }

  lemma Storages(body: seq<Op>)
    requires Disciplined({Storage}, body, {Storage})
    ensures Disciplined({}, UnderStorage(body), {})
  {
    assert {} + {Storage} == {Storage};
    Bracket(Storage, {}, body);
  }

  lemma FailureDisciplined(uuid: Uuid, session: nat, from: nat, count: nat, last: bool)
    ensures Disciplined({}, Program(Failure(uuid, session, from, count, last)), {})
  {
    SendsDisciplined(uuid, [session], {});
    ShiftsDisciplined(uuid, from, count, {} + {Instances(uuid)});
    Bracket(Instances(uuid), {}, Shifts(uuid, from, count));
    Sequence({}, Sends(uuid, [session]), {}, UnderInstances(uuid, Shifts(uuid, from, count)), {});
    Storages([]);
    Sequence({}, Sends(uuid, [session]) + UnderInstances(uuid, Shifts(uuid, from, count)), {},
             if last then UnderStorage([]) else [], {});
  }

  /** Every operation of the server keeps the discipline, whatever it finds. */
  lemma EveryOperationDisciplined(op: Operation)
    ensures Disciplined({}, Program(op), {})
  {
    match op
    case PostToUsers(users) =>
      PostsDisciplined(users);
      Storages(Posts(users));
    case LookUpToken(users) =>
      LookUpsDisciplined(users);
      Storages(LookUps(users));
    case Login(uuid, from, count, moved) =>
      LoginDisciplined(uuid, from, count, moved);
    case Subscribe(uuid, from, count, moved) =>
      Storages([]);
      LoginDisciplined(uuid, from, count, moved);
      Sequence({}, UnderStorage([]), {}, LoginProgram(uuid, from, count, moved), {});
    case SubscribeUnknown =>
      Storages([]);
    case Completion(uuid, session) =>
      SendsDisciplined(uuid, [session], {});
    case Failure(uuid, session, from, count, last) =>
      FailureDisciplined(uuid, session, from, count, last);
  }
  // ---------------------------------------------------------------- and takes what it needs

  /** The mutexes a program takes. */
  function Taken(program: seq<Op>): set<Lock> {
    if program == [] then {}
    else Locked(program[0]) + Taken(program[1..])
  }

  function Locked(op: Op): set<Lock> {
    match op
    case Acquire(lock) => {lock}
    case AcquireBoth(lock, other) => {lock, other}
    case Release(_) => {}
  }

  /** What must be held when a mutex is taken in an operation that starts with the storage mutex (`whole`), or
      in the part of a logoff that starts with the instances mutex. */
  function Outer(lock: Lock, whole: bool): set<Lock> {
    match lock
    case Storage => {}
    case Instances(_) => if whole then {Storage} else {}
    case Instance(uuid, _) => if whole then {Storage, Instances(uuid)} else {Instances(uuid)}
  }

  /** From `held`, the program takes every mutex inside those around it and ends with `held`. */
  ghost predicate Nested(held: set<Lock>, program: seq<Op>, whole: bool, end: set<Lock>)
    decreases |program|
  {
    if program == [] then held == end
    else
      match program[0]
      case Acquire(lock) => Outer(lock, whole) <= held && Nested(held + {lock}, program[1..], whole, end)
      case AcquireBoth(lock, other) =>
        && Outer(lock, whole) + Outer(other, whole) <= held && Nested(held + {lock, other}, program[1..], whole, end)
      case Release(lock) => Nested(held - {lock}, program[1..], whole, end)
  }

  lemma {:induction false} TakenConcat(one: seq<Op>, two: seq<Op>)
    ensures Taken(one + two) == Taken(one) + Taken(two)
  {
    if one == [] {
      assert one + two == two;
    } else {
      assert (one + two)[1..] == one[1..] + two;
      TakenConcat(one[1..], two);
    }
  }

  lemma {:induction false} NestedConcat(held: set<Lock>, one: seq<Op>, middle: set<Lock>, two: seq<Op>, whole: bool,
                                        end: set<Lock>)
    requires Nested(held, one, whole, middle) && Nested(middle, two, whole, end)
    ensures Nested(held, one + two, whole, end)
    decreases |one|
  {
    if one == [] {
      assert one + two == two;
    } else {
      assert (one + two)[1..] == one[1..] + two;
      match one[0]
      case Acquire(lock) => NestedConcat(held + {lock}, one[1..], middle, two, whole, end);
      case AcquireBoth(lock, other) => NestedConcat(held + {lock, other}, one[1..], middle, two, whole, end);
      case Release(lock) => NestedConcat(held - {lock}, one[1..], middle, two, whole, end);
    }
  }

  /** A body between the taking and the giving of a mutex. */
  lemma Inside(lock: Lock, held: set<Lock>, body: seq<Op>, whole: bool)
    requires lock !in held && Outer(lock, whole) <= held && Nested(held + {lock}, body, whole, held + {lock})
    ensures Nested(held, [Acquire(lock)] + body + [Release(lock)], whole, held)
    ensures Taken([Acquire(lock)] + body + [Release(lock)]) == {lock} + Taken(body)
  {
    assert held + {lock} - {lock} == held;
    assert Nested(held + {lock}, [Release(lock)], whole, held);
    NestedConcat(held + {lock}, body, held + {lock}, [Release(lock)], whole, held);
    assert ([Acquire(lock)] + body + [Release(lock)])[1..] == body + [Release(lock)];
    TakenConcat(body, [Release(lock)]);
    assert Taken([Release(lock)]) == {};
  }

  lemma {:induction false} SendsTake(uuid: Uuid, queued: seq<nat>, held: set<Lock>, whole: bool)
    requires Outer(Instance(uuid, 0), whole) <= held && forall k :: Instance(uuid, k) !in held
    ensures Nested(held, Sends(uuid, queued), whole, held)
    ensures Taken(Sends(uuid, queued)) == set k | k in queued :: Instance(uuid, k)
  {
    if queued != [] {
      var lock := Instance(uuid, queued[0]);
      Inside(lock, held, [], whole);
      assert [Acquire(lock)] + [] + [Release(lock)] == [Acquire(lock), Release(lock)];
      SendsTake(uuid, queued[1..], held, whole);
      NestedConcat(held, [Acquire(lock), Release(lock)], held, Sends(uuid, queued[1..]), whole, held);
      TakenConcat([Acquire(lock), Release(lock)], Sends(uuid, queued[1..]));
      assert queued == [queued[0]] + queued[1..];
    }
  }

  /** The elements that a shift touches. */
  function Touched(uuid: Uuid, from: nat, count: nat): set<Lock> {
    if count == 0 then {} else set k | from <= k <= from + count :: Instance(uuid, k)
  }

  lemma ShiftTakes(uuid: Uuid, from: nat, held: set<Lock>, whole: bool)
    requires Outer(Instance(uuid, 0), whole) <= held && forall k :: Instance(uuid, k) !in held
    ensures var shift := [AcquireBoth(Instance(uuid, from), Instance(uuid, from + 1)),
                          Release(Instance(uuid, from + 1)), Release(Instance(uuid, from))];
            && Nested(held, shift, whole, held)
            && Taken(shift) == {Instance(uuid, from), Instance(uuid, from + 1)}
  {
    var one, two := Instance(uuid, from), Instance(uuid, from + 1);
    var shift := [AcquireBoth(one, two), Release(two), Release(one)];
    assert held + {one, two} - {two} - {one} == held;
    assert shift[1..] == [Release(two), Release(one)] && shift[1..][1..] == [Release(one)];
    assert Nested(held + {one, two} - {two}, [Release(one)], whole, held);
    assert Taken([Release(one)]) == {} && Taken(shift[1..]) == {};
  }

  lemma {:induction false} ShiftsTake(uuid: Uuid, from: nat, count: nat, held: set<Lock>, whole: bool)
    requires Outer(Instance(uuid, 0), whole) <= held && forall k :: Instance(uuid, k) !in held
    ensures Nested(held, Shifts(uuid, from, count), whole, held)
    ensures Taken(Shifts(uuid, from, count)) == Touched(uuid, from, count)
    decreases count
  {
    if count > 0 {
      var shift := [AcquireBoth(Instance(uuid, from), Instance(uuid, from + 1)),
                    Release(Instance(uuid, from + 1)), Release(Instance(uuid, from))];
      ShiftTakes(uuid, from, held, whole);
      ShiftsTake(uuid, from + 1, count - 1, held, whole);
      NestedConcat(held, shift, held, Shifts(uuid, from + 1, count - 1), whole, held);
      TakenConcat(shift, Shifts(uuid, from + 1, count - 1));
    }
  }

  lemma {:induction false} PostsTake(users: seq<Audience>)
    ensures Nested({Storage}, Posts(users), true, {Storage})
    ensures forall lock :: lock in Taken(Posts(users)) <==> exists i :: 0 <= i < |users| && PostTakes(users[i], lock)
  {
    if users != [] {
      var user, first := users[0], UnderInstances(users[0].uuid, Sends(users[0].uuid, users[0].queued));
      SendsTake(user.uuid, user.queued, {Storage} + {Instances(user.uuid)}, true);
      Inside(Instances(user.uuid), {Storage}, Sends(user.uuid, user.queued), true);
      PostsTake(users[1..]);
      NestedConcat({Storage}, first, {Storage}, Posts(users[1..]), true, {Storage});
      TakenConcat(first, Posts(users[1..]));
      forall lock
        ensures lock in Taken(Posts(users)) <==> exists i :: 0 <= i < |users| && PostTakes(users[i], lock)
      {
        FirstOrLater(users, lock);
      }
    }
  }

  lemma FirstOrLater(users: seq<Audience>, lock: Lock)
    requires users != []
    ensures (exists i :: 0 <= i < |users| && PostTakes(users[i], lock)) <==>
            PostTakes(users[0], lock) || exists i :: 0 <= i < |users[1..]| && PostTakes(users[1..][i], lock)
  {
    if i :| 0 <= i < |users[1..]| && PostTakes(users[1..][i], lock) {
      assert PostTakes(users[i + 1], lock);
    }
    if i :| 0 <= i < |users| && PostTakes(users[i], lock) {
      assert i > 0 ==> PostTakes(users[1..][i - 1], lock);
    }
  }

  /** A user's instances mutex, and the mutex of each of his sessions that queues. */
  predicate PostTakes(user: Audience, lock: Lock) {
    lock == Instances(user.uuid) || (lock.Instance? && lock.uuid == user.uuid && lock.session in user.queued)
  }

  lemma {:induction false} LookUpsTake(users: seq<Uuid>)
    ensures Nested({Storage}, LookUps(users), true, {Storage})
    ensures Taken(LookUps(users)) == set u | u in users :: Instances(u)
  {
    if users != [] {
      Inside(Instances(users[0]), {Storage}, [], true);
      LookUpsTake(users[1..]);
      NestedConcat({Storage}, UnderInstances(users[0], []), {Storage}, LookUps(users[1..]), true, {Storage});
      TakenConcat(UnderInstances(users[0], []), LookUps(users[1..]));
      assert users == [users[0]] + users[1..];
    }
  }

  lemma StorageTakes(body: seq<Op>)
    requires Nested({Storage}, body, true, {Storage})
    ensures Nested({}, UnderStorage(body), true, {}) && Taken(UnderStorage(body)) == {Storage} + Taken(body)
  {
    assert {} + {Storage} == {Storage};
    Inside(Storage, {}, body, true);
  }

  lemma LoginTakes(uuid: Uuid, from: nat, count: nat, moved: seq<nat>)
    ensures var program := LoginProgram(uuid, from, count, moved);
            && Nested({}, program, true, {})
            && Taken(program) == {Storage, Instances(uuid)} + Touched(uuid, from, count)
                                 + set k | k in moved :: Instance(uuid, k)
  {
    var held := {Storage} + {Instances(uuid)};
    var body := Shifts(uuid, from, count) + Sends(uuid, moved);
    ShiftsTake(uuid, from, count, held, true);
    SendsTake(uuid, moved, held, true);
    NestedConcat(held, Shifts(uuid, from, count), held, Sends(uuid, moved), true, held);
    TakenConcat(Shifts(uuid, from, count), Sends(uuid, moved));
    Inside(Instances(uuid), {Storage}, body, true);
    StorageTakes(UnderInstances(uuid, body));
  }

  /** Every operation under the storage mutex takes the instances mutex of each user and the mutex of each session
      that it touches, each inside those around it, and no other. */
  lemma OperationsTake(op: Operation, lock: Lock)
    requires !op.Completion? && !op.Failure?
    ensures Nested({}, Program(op), true, {})
    ensures lock in Taken(Program(op)) <==>
              || lock == Storage
              || match op
                 case PostToUsers(users) => exists i :: 0 <= i < |users| && PostTakes(users[i], lock)
                 case LookUpToken(uuids) => lock.Instances? && lock.uuid in uuids
                 case SubscribeUnknown => false
                 case _ =>
                   || lock == Instances(op.uuid)
                   || (lock.Instance? && lock.uuid == op.uuid
                       && (lock.session in op.moved
                           || (op.count > 0 && op.from <= lock.session <= op.from + op.count)))
  {
    match op
    case PostToUsers(users) =>
      PostsTake(users);
      StorageTakes(Posts(users));
    case LookUpToken(users) =>
      LookUpsTake(users);
      StorageTakes(LookUps(users));
    case Login(uuid, from, count, moved) =>
      LoginTakes(uuid, from, count, moved);
    case Subscribe(uuid, from, count, moved) =>
      StorageTakes([]);
      LoginTakes(uuid, from, count, moved);
      NestedConcat({}, UnderStorage([]), {}, LoginProgram(uuid, from, count, moved), true, {});
      TakenConcat(UnderStorage([]), LoginProgram(uuid, from, count, moved));
    case SubscribeUnknown =>
      StorageTakes([]);
  }

  lemma UpTakes(uuid: Uuid, from: nat, count: nat, last: bool)
    ensures var up := UnderInstances(uuid, Shifts(uuid, from, count)) + (if last then UnderStorage([]) else []);
            && Nested({}, up, false, {})
            && Taken(up) == {Instances(uuid)} + Touched(uuid, from, count) + if last then {Storage} else {}
  {
    var up, drop := UnderInstances(uuid, Shifts(uuid, from, count)), if last then UnderStorage([]) else [];
    ShiftsTake(uuid, from, count, {} + {Instances(uuid)}, false);
    Inside(Instances(uuid), {}, Shifts(uuid, from, count), false);
    Inside(Storage, {}, [], false);
    NestedConcat({}, up, {}, drop, false, {});
    TakenConcat(up, drop);
  }

  /** A completion takes its session's mutex.  A failure does, and has given it back when it goes up: to the instances
      mutex, under which it moves the elements behind the erased one, and with the last session, when it has
      given that back too, to the storage mutex. */
  lemma LogoffTakes(uuid: Uuid, session: nat, from: nat, count: nat, last: bool)
    ensures Taken(Program(Completion(uuid, session))) == {Instance(uuid, session)}
    ensures var program := Program(Failure(uuid, session, from, count, last));
            && |program| >= 2
            && program[..2] == [Acquire(Instance(uuid, session)), Release(Instance(uuid, session))]
            && Nested({}, program[2..], false, {})
            && Taken(program[2..]) == {Instances(uuid)} + Touched(uuid, from, count) + if last then {Storage} else {}
  {
    var up := UnderInstances(uuid, Shifts(uuid, from, count)) + (if last then UnderStorage([]) else []);
    var program := Program(Failure(uuid, session, from, count, last));
    UpTakes(uuid, from, count, last);
    SendsTake(uuid, [session], {Storage, Instances(uuid)}, true);
    assert Sends(uuid, [session]) == [Acquire(Instance(uuid, session)), Release(Instance(uuid, session))];
    assert program == Sends(uuid, [session]) + up;
    assert program[2..] == up;
  }
}
