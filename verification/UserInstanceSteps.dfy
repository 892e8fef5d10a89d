/** One session (`UserInstance`) at the grain of its atomic operations and mutex operations.

    Senders are serialised by `User::m_instances_mutex`, so there is at most one at a time; completions
    come from any number of completion-queue threads and do not hold that mutex.  The stream's
    environment completes every outstanding `Write` exactly once, with success or failure. */
module UserInstanceSteps {
  import opened Runs
  import opened SessionTypes

  type Tid = nat

  /** An accepted event.  `ticket` numbers the accepted events in the order of their exchanges, which is
      the order in which `SendEvent` was called; the program only handles `event`. */
  datatype Item = Item(ticket: nat, event: Event)

  /** Where the one sender is inside `SendEvent`; everywhere but `Away` it holds `m_instances_mutex`. */
  datatype Sender =
    | Away
    | Entered(e: Event)    // about to load the state
    | Loaded(e: Event)     // about to exchange
    | ToWrite(item: Item)  // the exchange returned IDLE
    | ToPush(item: Item)   // the exchange returned something else; wants m_mtx
    | InPush(item: Item)   // holds m_mtx
    | Pushed               // holds m_mtx, about to release it

  /** Where a completion-queue thread is inside `OnAsyncEventFinished` or `OnFinished`. */
  datatype Handler =
    | Succeeded            // about to load the state
    | Passed               // wants m_mtx
    | InLock               // holds m_mtx, about to look at the queue
    | Popped(item: Item)   // holds m_mtx, about to store WRITING
    | Stored(item: Item)   // holds m_mtx, about to call Write
    | Leaving              // holds m_mtx, about to release it
    | Failed               // OnFinished: wants m_mtx
    | InFinish             // holds m_mtx, about to store SHUTDOWN
    | FinishStored         // holds m_mtx, about to release it
    | LoggingOff           // about to call m_on_logoff
    | Returned             // back at the completion queue

  datatype Owner = Free | BySender | ByHandler(h: Tid)

  /** `sent`, `written`, `finished`, `strands` and `overtakes` record history:
      the events accepted so far, the items handed to `Write` so far, whether `OnFinished` has stored SHUTDOWN,
      how often IDLE was stored between a sender's exchange and its push, and how often an exchange found
      IDLE although the queue was not empty. */
  datatype State = State(
    flag: Flag,
    queue: seq<Item>,
    mutex: Owner,
    sender: Sender,
    inFlight: nat,
    handlers: map<Tid, Handler>,
    erased: bool,
    sent: seq<Event>,
    written: seq<Item>,
    finished: bool,
    strands: nat,
    overtakes: nat)

  const FRESH := State(IDLE, [], Free, Away, 0, map[], false, [], [], false, 0, 0)

  datatype Action =
    | Enter(e: Event)              // a poster holding m_instances_mutex calls SendEvent
    | Send                         // the sender's next statement
    | Complete(h: Tid, ok: bool)   // the outcome of an outstanding Write reaches thread h
    | Handle(h: Tid)               // thread h's next statement

  function Do(s: State, a: Action): State {
    match a
    case Enter(e) => if s.sender.Away? && !s.erased then s.(sender := Entered(e)) else s
    case Send => SenderStep(s)
    case Complete(h, ok) =>
      if s.inFlight > 0 && h !in s.handlers
      then s.(inFlight := s.inFlight - 1, handlers := s.handlers[h := if ok then Succeeded else Failed])
      else s
    case Handle(h) => if h in s.handlers then HandlerStep(s, h) else s
  }

  function SenderStep(s: State): State {
    match s.sender
    case Away => s
    case Entered(e) => s.(sender := if s.flag == SHUTDOWN then Away else Loaded(e))
    case Loaded(e) =>
      var item := Item(|s.sent|, e);
      s.(flag := WRITING,
         sender := if s.flag == IDLE then ToWrite(item) else ToPush(item),
         sent := s.sent + [e],
         overtakes := if s.flag == IDLE && s.queue != [] then s.overtakes + 1 else s.overtakes)
    case ToWrite(item) =>
      s.(written := s.written + [item], inFlight := s.inFlight + 1, sender := Away)
    case ToPush(item) =>
      if s.mutex.Free? then s.(mutex := BySender, sender := InPush(item)) else s
    case InPush(item) => s.(queue := s.queue + [item], sender := Pushed)
    case Pushed => s.(mutex := Free, sender := Away)
  }

  function HandlerStep(s: State, h: Tid): State
    requires h in s.handlers
  {
    HandlerEffect(s, h).(handlers := At(s, h, NextPc(s, s.handlers[h])))
  }

  /** Where thread `h` continues; a thread that finds m_mtx taken stays. */
  function NextPc(s: State, pc: Handler): Handler {
    match pc
    case Succeeded => if s.flag == SHUTDOWN then Returned else Passed
    case Passed => if s.mutex.Free? then InLock else pc
    case InLock => if s.queue == [] then Leaving else Popped(s.queue[0])
    case Popped(item) => Stored(item)
    case Stored(item) => Leaving
    case Leaving => Returned
    case Failed => if s.mutex.Free? then InFinish else pc
    case InFinish => FinishStored
    case FinishStored => LoggingOff
    case LoggingOff => if s.sender.Away? then Returned else pc
    case Returned => pc
  }

  /** What thread `h`'s next statement does to the session. */
  function HandlerEffect(s: State, h: Tid): State
    requires h in s.handlers
  {
    match s.handlers[h]
    case Passed => if s.mutex.Free? then s.(mutex := ByHandler(h)) else s
    case InLock =>
      if s.queue == []
      then s.(flag := IDLE, strands := if s.sender.ToPush? then s.strands + 1 else s.strands)
      else s.(queue := s.queue[1..])
    case Popped(item) => s.(flag := WRITING)
    case Stored(item) => s.(written := s.written + [item], inFlight := s.inFlight + 1)
    case Leaving => s.(mutex := Free)
    case Failed => if s.mutex.Free? then s.(mutex := ByHandler(h)) else s
    case InFinish => s.(flag := SHUTDOWN, finished := true)
    case FinishStored => s.(mutex := Free)
    case LoggingOff => if s.sender.Away? then s.(erased := true) else s
    case _ => s
  }

  /** Thread `h` moves on to `pc`; a thread that has returned to the completion queue is forgotten. */
  function At(s: State, h: Tid, pc: Handler): (handlers: map<Tid, Handler>)
    ensures forall k :: k != h ==> (k in handlers <==> k in s.handlers)
    ensures forall k :: k != h && k in handlers ==> handlers[k] == s.handlers[k]
  {
    if pc.Returned? then s.handlers - {h} else s.handlers[h := pc]
  }

  /** A schedule, from a session that has just been attached. */
  ghost function Reached(acts: seq<Action>): State {
    After(Do, FRESH, acts)
  }

  // ---------------------------------------------------------------- the write token

  /** Who may call `Write` next. */
  datatype Token = Resting | WithSender | OnWire | WithHandler(h: Tid) | Dead

  /** A handler that still has the completed write's right to write. */
  predicate Entitled(pc: Handler) {
    !pc.Leaving? && !pc.FinishStored? && !pc.LoggingOff? && !pc.Returned?
  }

  /** `t` is the one place where the right to write is. */
  ghost predicate TokenIs(s: State, t: Token) {
    && (s.flag == IDLE <==> t.Resting?)
    && (s.sender.ToWrite? <==> t.WithSender?)
    && s.inFlight == (if t.OnWire? then 1 else 0)
    && (forall h :: h in s.handlers && Entitled(s.handlers[h]) <==> t == WithHandler(h))
    && (s.finished <==> t.Dead?)
  }

  predicate InsideMutex(pc: Handler) {
    pc.InLock? || pc.Popped? || pc.Stored? || pc.Leaving? || pc.InFinish? || pc.FinishStored?
  }

  ghost predicate MutexOk(s: State) {
    && (s.mutex.BySender? <==> s.sender.InPush? || s.sender.Pushed?)
    && (forall h :: s.mutex == ByHandler(h) <==> h in s.handlers && InsideMutex(s.handlers[h]))
    && (s.flag == SHUTDOWN ==> s.finished)
  }

  // ---------------------------------------------------------------- what is pending, and in which order

  ghost predicate Carrier(s: State, h: Tid) {
    h in s.handlers && (s.handlers[h].Popped? || s.handlers[h].Stored?)
  }

  /** The item a handler has popped and not yet written. */
  ghost function Carried(s: State): seq<Item> {
    if exists h :: Carrier(s, h) then var h :| Carrier(s, h); [s.handlers[h].item] else []
  }

  function Chosen(s: State): seq<Item> {
    if s.sender.ToWrite? then [s.sender.item] else []
  }

  function Unpushed(s: State): seq<Item> {
    if s.sender.ToPush? || s.sender.InPush? then [s.sender.item] else []
  }

  /** Where the accepted events are, without threads and locks. */
  datatype View = View(
    written: seq<Item>,
    chosen: seq<Item>,     // a sender is about to write it
    hand: seq<Item>,       // a handler carries it
    queue: seq<Item>,
    unpushed: seq<Item>,   // a sender is about to push it
    idle: bool,
    sent: seq<Event>,
    strands: nat,
    overtakes: nat)
  {
    /** Everything accepted, in the order in which the stream receives it if nothing more is sent. */
    function Line(): seq<Item> {
      written + chosen + hand + queue + unpushed
    }

    function Settled(): seq<Item> {
      written + hand + queue
    }
  }

  ghost function ViewOf(s: State): View {
    View(s.written, Chosen(s), Carried(s), s.queue, Unpushed(s), s.flag == IDLE, s.sent, s.strands, s.overtakes)
  }

  ghost function Line(s: State): seq<Item> {
    ViewOf(s).Line()
  }

  ghost function EventsOf(items: seq<Item>): seq<Event> {
    seq(|items|, i requires 0 <= i < |items| => items[i].event)
  }

  /** Ticket order up to disjoint swaps of neighbours. */
  ghost predicate NearOrder(line: seq<Item>) {
    NearOrderTo(line, |line|)
  }

  /** The first `n` places hold the first `n` tickets, in order up to disjoint swaps of neighbours. */
  ghost predicate NearOrderTo(line: seq<Item>, n: nat)
    requires n <= |line|
  {
    || n == 0
    || (line[n - 1].ticket == n - 1 && NearOrderTo(line, n - 1))
    || (n >= 2 && line[n - 1].ticket == n - 2 && line[n - 2].ticket == n - 1 && NearOrderTo(line, n - 2))
  }

  ghost predicate InOrder(line: seq<Item>) {
    forall i {:trigger line[i]} :: 0 <= i < |line| ==> line[i].ticket == i
  }

  /** How many of the first `n` places hold a ticket that is ahead of its turn. */
  ghost function SwapsTo(line: seq<Item>, n: nat): nat
    requires n <= |line|
  {
    if n == 0 then 0
    else SwapsTo(line, n - 1) + (if line[n - 1].ticket > n - 1 then 1 else 0)
  }

  ghost function Swaps(line: seq<Item>): nat {
    SwapsTo(line, |line|)
  }

  ghost predicate Faithful(line: seq<Item>, sent: seq<Event>) {
    forall i {:trigger line[i]} :: 0 <= i < |line| ==> line[i].ticket < |sent| && line[i].event == sent[line[i].ticket]
  }

  ghost predicate OrderOk(v: View) {
    var n := |v.sent|;
    && NearOrder(v.Settled())
    && Faithful(v.Line(), v.sent)
    && |v.Line()| == n
    && Swaps(v.Line()) == v.overtakes
    && |v.unpushed| <= 1 && |v.chosen| <= 1 && |v.hand| <= 1
    && (v.chosen != [] ==> v.unpushed == [] && v.hand == [] && !v.idle && |v.queue| <= 1)
    && (v.unpushed != [] ==> v.unpushed[0].ticket == n - 1)
    && (v.chosen != [] ==> v.chosen[0].ticket == n - 1)
    && (v.chosen != [] && v.queue != [] ==> v.queue[0].ticket == n - 2)
    && (v.idle ==> |v.queue| + |v.unpushed| <= 1 && v.hand == [])
    && (v.idle && v.queue != [] ==> v.queue[0].ticket == n - 1)
    // a strand that has not yet led to an overtake shows as IDLE with something pending
    && v.overtakes + (if v.idle && v.queue + v.unpushed != [] then 1 else 0) <= v.strands
  }

  ghost predicate TokenOk(s: State, t: Token) {
    TokenIs(s, t) && MutexOk(s)
  }

  ghost predicate Good(s: State, t: Token) {
    TokenOk(s, t) && OrderOk(ViewOf(s))
  }

  ghost predicate Inv(s: State) {
    exists t :: Good(s, t)
  }
}
