/** What every schedule of one session keeps: the write token, the mutex, and the order of delivery. */
module Delivery {
  import opened Runs
  import opened SessionTypes
  import opened UserInstanceSteps

  // ---------------------------------------------------------------- sequences

  lemma {:induction false} SamePrefix(one: seq<Item>, two: seq<Item>, n: nat)
    requires n <= |one| && n <= |two| && one[..n] == two[..n]
    ensures NearOrderTo(one, n) == NearOrderTo(two, n) && SwapsTo(one, n) == SwapsTo(two, n)
  {
    if n > 0 {
      assert one[n - 1] == one[..n][n - 1] == two[..n][n - 1] == two[n - 1];
      assert one[..n - 1] == one[..n][..n - 1] == two[..n - 1];
      SamePrefix(one, two, n - 1);
    }
    if n > 1 {
      assert one[n - 2] == one[..n][n - 2] == two[..n][n - 2] == two[n - 2];
      assert one[..n - 2] == one[..n][..n - 2] == two[..n - 2];
      SamePrefix(one, two, n - 2);
    }
  }

  lemma SwapsSnoc(line: seq<Item>, item: Item)
    ensures Swaps(line + [item]) == Swaps(line) + (if item.ticket > |line| then 1 else 0)
  {
    SamePrefix(line, line + [item], |line|);
  }

  lemma NearSnoc(line: seq<Item>, item: Item)
    requires NearOrder(line) && item.ticket == |line|
    ensures NearOrder(line + [item])
  {
    SamePrefix(line, line + [item], |line|);
  }

  /** A later event written in front of the one pending event. */
  lemma NearSwap(line: seq<Item>, waiting: Item, item: Item)
    requires NearOrder(line + [waiting]) && waiting.ticket == |line| && item.ticket == |line| + 1
    ensures NearOrder(line + [item] + [waiting])
  {
    SamePrefix(line, line + [waiting], |line|);
    SamePrefix(line, line + [item] + [waiting], |line|);
  }

  lemma FaithfulSnoc(line: seq<Item>, sent: seq<Event>, e: Event)
    requires Faithful(line, sent)
    ensures Faithful(line + [Item(|sent|, e)], sent + [e])
  {}

  lemma FaithfulSwap(line: seq<Item>, x: Item, sent: seq<Event>, e: Event)
    requires Faithful(line + [x], sent)
    ensures Faithful(line + [Item(|sent|, e)] + [x], sent + [e])
  {
    assert (line + [x])[|line|] == x;
    var now := line + [Item(|sent|, e)] + [x];
    forall i | 0 <= i < |now|
      ensures now[i].ticket < |sent| + 1 && now[i].event == (sent + [e])[now[i].ticket]
    {
      assert i < |line| ==> now[i] == (line + [x])[i];
    }
  }

  // ---------------------------------------------------------------- the write token

  /** One step moves the token at most along idle -> sender -> wire -> handler -> (idle or wire or dead). */
  function Moved(s: State, t: Token, a: Action): Token {
    match a
    case Enter(_) => t
    case Send =>
      if s.sender.Loaded? && s.flag == IDLE then WithSender
      else if s.sender.ToWrite? then OnWire else t
    case Complete(h, _) => if Do(s, a) == s then t else WithHandler(h)
    case Handle(h) =>
      if h !in s.handlers then t
      else match s.handlers[h]
        case InLock => if s.queue == [] then Resting else t
        case Stored(_) => OnWire
        case InFinish => Dead
        case _ => t
  }

  lemma SendKeepsToken(s: State, t: Token)
    requires TokenOk(s, t)
    ensures TokenOk(SenderStep(s), Moved(s, t, Send))
  {}

  lemma CompleteKeepsToken(s: State, t: Token, h: Tid, ok: bool)
    requires TokenOk(s, t)
    ensures TokenOk(Do(s, Complete(h, ok)), Moved(s, t, Complete(h, ok)))
  {}

  /** A handler's step touches no other handler. */
  lemma OthersUntouched(s: State, h: Tid, k: Tid)
    requires h in s.handlers && k != h
    ensures k in HandlerStep(s, h).handlers <==> k in s.handlers
    ensures k in s.handlers ==> HandlerStep(s, h).handlers[k] == s.handlers[k]
  {}

  lemma HolderMovesToken(s: State, h: Tid)
    requires TokenOk(s, WithHandler(h)) && h in s.handlers
    ensures TokenIs(HandlerStep(s, h), Moved(s, WithHandler(h), Handle(h)))
  {
    forall k | k != h
      ensures !(k in HandlerStep(s, h).handlers && Entitled(HandlerStep(s, h).handlers[k]))
    {
      OthersUntouched(s, h, k);
    }
  }

  lemma OtherKeepsToken(s: State, t: Token, h: Tid)
    requires TokenOk(s, t) && h in s.handlers && !Entitled(s.handlers[h])
    ensures TokenIs(HandlerStep(s, h), t) && Moved(s, t, Handle(h)) == t
  {
    forall k
      ensures k in HandlerStep(s, h).handlers && Entitled(HandlerStep(s, h).handlers[k]) <==> t == WithHandler(k)
    {
      if k != h {
        OthersUntouched(s, h, k);
      }
    }
  }

  lemma HandleKeepsMutex(s: State, h: Tid)
    requires MutexOk(s) && h in s.handlers
    ensures MutexOk(HandlerStep(s, h))
  {
    var s' := HandlerStep(s, h);
    assert s.mutex == ByHandler(h) <==> InsideMutex(s.handlers[h]);
    assert s'.mutex == ByHandler(h) <==> h in s'.handlers && InsideMutex(s'.handlers[h]);
    forall k | k != h
      ensures s'.mutex == ByHandler(k) <==> k in s'.handlers && InsideMutex(s'.handlers[k])
    {
      OthersUntouched(s, h, k);
    }
  }

  lemma HandleKeepsToken(s: State, t: Token, h: Tid)
    requires TokenOk(s, t) && h in s.handlers
    ensures TokenOk(HandlerStep(s, h), Moved(s, t, Handle(h)))
  {
    if Entitled(s.handlers[h]) {
      assert t == WithHandler(h);
      HolderMovesToken(s, h);
    } else {
      OtherKeepsToken(s, t, h);
    }
    HandleKeepsMutex(s, h);
  }

  lemma CarriedIs(s: State, t: Token)
    requires TokenIs(s, t)
    ensures Carried(s) == if t.WithHandler? && (s.handlers[t.h].Popped? || s.handlers[t.h].Stored?)
                          then [s.handlers[t.h].item] else []
  {
    if h :| Carrier(s, h) {
      assert Entitled(s.handlers[h]);
    }
    if t.WithHandler? && (s.handlers[t.h].Popped? || s.handlers[t.h].Stored?) {
      assert Carrier(s, t.h);
    }
  }

  // ---------------------------------------------------------------- the order of delivery

  function Accept(v: View, e: Event): View {
    var item := Item(|v.sent|, e);
    v.(chosen := if v.idle then [item] else [],
       unpushed := if v.idle then [] else [item],
       idle := false,
       sent := v.sent + [e],
       overtakes := if v.idle && v.queue != [] then v.overtakes + 1 else v.overtakes)
  }

  lemma AcceptKeepsOrder(v: View, e: Event)
    requires OrderOk(v) && v.chosen == v.unpushed == [] && !(v.idle && v.queue != [])
    ensures OrderOk(Accept(v, e))
  {
    var item := Item(|v.sent|, e);
    assert Accept(v, e).Line() == v.Line() + [item];
    assert v.Line() == v.Settled();
    SwapsSnoc(v.Line(), item);
    FaithfulSnoc(v.Line(), v.sent, e);
  }

  /** The exchange that overtakes: IDLE was stored although something is pending. */
  lemma OvertakeKeepsOrder(v: View, e: Event)
    requires OrderOk(v) && v.chosen == v.unpushed == [] && v.idle && v.queue != []
    ensures OrderOk(Accept(v, e))
  {
    var item, x := Item(|v.sent|, e), v.queue[0];
    assert v.queue == [x];
    assert v.Line() == v.Settled() == v.written + [x];
    assert Accept(v, e).Line() == v.written + [item] + [x];
    SwapsSnoc(v.written, x);
    SwapsSnoc(v.written, item);
    SwapsSnoc(v.written + [item], x);
    FaithfulSwap(v.written, x, v.sent, e);
  }

  lemma SenderWriteKeepsOrder(v: View, item: Item)
    requires OrderOk(v) && v.chosen == [item]
    ensures OrderOk(v.(written := v.written + [item], chosen := []))
  {
    var v' := v.(written := v.written + [item], chosen := []);
    assert v'.Line() == v.Line();
    if v.queue == [] {
      assert v'.Settled() == v.Settled() + [item];
      NearSnoc(v.Settled(), item);
    } else {
      var x := v.queue[0];
      assert v.queue == [x];
      assert v.Settled() == v.written + [x];
      assert v'.Settled() == v.written + [item] + [x];
      NearSwap(v.written, x, item);
    }
  }

  lemma PushKeepsOrder(v: View, item: Item)
    requires OrderOk(v) && v.unpushed == [item]
    ensures OrderOk(v.(queue := v.queue + [item], unpushed := []))
  {
    var v' := v.(queue := v.queue + [item], unpushed := []);
    assert v'.Line() == v.Line();
    assert v'.Settled() == v.Settled() + [item];
    NearSnoc(v.Settled(), item);
  }

  lemma PopKeepsOrder(v: View)
    requires OrderOk(v) && v.queue != [] && v.hand == v.chosen == [] && !v.idle
    ensures OrderOk(v.(hand := [v.queue[0]], queue := v.queue[1..]))
  {
    var v' := v.(hand := [v.queue[0]], queue := v.queue[1..]);
    assert v'.Line() == v.Line();
    assert v'.Settled() == v.Settled();
  }

  lemma HandlerWriteKeepsOrder(v: View)
    requires OrderOk(v) && v.hand != [] && v.chosen == []
    ensures OrderOk(v.(written := v.written + v.hand, hand := []))
  {
    var v' := v.(written := v.written + v.hand, hand := []);
    assert v'.Line() == v.Line();
    assert v'.Settled() == v.Settled();
  }

  lemma RestKeepsOrder(v: View)
    requires OrderOk(v) && v.queue == v.hand == v.chosen == [] && !v.idle
    ensures OrderOk(v.(idle := true, strands := if v.unpushed != [] then v.strands + 1 else v.strands))
  {
    var v' := v.(idle := true, strands := if v.unpushed != [] then v.strands + 1 else v.strands);
    assert v'.Line() == v.Line();
    assert v'.Settled() == v.Settled();
  }

  // ---------------------------------------------------------------- every step keeps the invariant

  function Sent(v: View, pc: Sender): View {
    match pc
    case Loaded(e) => Accept(v, e)
    case ToWrite(item) => v.(written := v.written + [item], chosen := [])
    case InPush(item) => v.(queue := v.queue + [item], unpushed := [])
    case _ => v
  }

  lemma SendMovesView(s: State, t: Token)
    requires TokenOk(s, t)
    ensures ViewOf(SenderStep(s)) == Sent(ViewOf(s), s.sender)
  {
    SendKeepsToken(s, t);
    CarriedIs(s, t);
    CarriedIs(SenderStep(s), Moved(s, t, Send));
  }

  lemma SendKeepsOrder(v: View, pc: Sender)
    requires OrderOk(v)
    requires pc.Loaded? ==> v.chosen == v.unpushed == []
    requires pc.ToWrite? ==> v.chosen == [pc.item]
    requires pc.InPush? ==> v.unpushed == [pc.item]
    ensures OrderOk(Sent(v, pc))
  {
    match pc
    case Loaded(e) =>
      if v.idle && v.queue != [] {
        OvertakeKeepsOrder(v, e);
      } else {
        AcceptKeepsOrder(v, e);
      }
    case ToWrite(item) => SenderWriteKeepsOrder(v, item);
    case InPush(item) => PushKeepsOrder(v, item);
    case _ =>
  }

  function Handled(v: View, pc: Handler): View {
    match pc
    case InLock =>
      if v.queue == [] then v.(idle := true, strands := if v.unpushed != [] then v.strands + 1 else v.strands)
      else v.(hand := [v.queue[0]], queue := v.queue[1..])
    case Stored(_) => v.(written := v.written + v.hand, hand := [])
    case _ => v
  }

  lemma CarriedMoves(s: State, t: Token, h: Tid)
    requires TokenOk(s, t) && h in s.handlers
    ensures Carried(HandlerStep(s, h)) == Handled(ViewOf(s), s.handlers[h]).hand
  {
    var s', t' := HandlerStep(s, h), Moved(s, t, Handle(h));
    HandleKeepsToken(s, t, h);
    CarriedIs(s, t);
    CarriedIs(s', t');
    if t == WithHandler(h) {
      assert t'.WithHandler? ==> t' == t;
    } else {
      assert !Entitled(s.handlers[h]);
      assert t' == t;
      assert t.WithHandler? ==> s'.handlers[t.h] == s.handlers[t.h];
    }
  }

  lemma HandleMovesView(s: State, t: Token, h: Tid)
    requires TokenOk(s, t) && h in s.handlers
    ensures ViewOf(HandlerStep(s, h)) == Handled(ViewOf(s), s.handlers[h])
  {
    CarriedMoves(s, t, h);
    if s.handlers[h].Stored? || s.handlers[h].InLock? {
      CarriedIs(s, t);
      assert t == WithHandler(h);
    }
  }

  lemma HandledKeepsOrder(v: View, pc: Handler)
    requires OrderOk(v)
    requires pc.InLock? ==> v.hand == v.chosen == [] && !v.idle
    requires pc.Stored? ==> v.hand != [] && v.chosen == []
    ensures OrderOk(Handled(v, pc))
  {
    if pc.InLock? {
      if v.queue == [] {
        RestKeepsOrder(v);
      } else {
        PopKeepsOrder(v);
      }
    } else if pc.Stored? {
      HandlerWriteKeepsOrder(v);
    }
  }

  lemma OtherKeepsView(s: State, t: Token, a: Action)
    requires TokenOk(s, t) && (a.Enter? || a.Complete?)
    ensures TokenOk(Do(s, a), Moved(s, t, a)) && ViewOf(Do(s, a)) == ViewOf(s)
  {
    if a.Complete? {
      CompleteKeepsToken(s, t, a.h, a.ok);
    }
    CarriedIs(s, t);
    CarriedIs(Do(s, a), Moved(s, t, a));
  }

  lemma HandleKeeps(s: State, t: Token, h: Tid)
    requires Good(s, t) && h in s.handlers
    ensures Good(HandlerStep(s, h), Moved(s, t, Handle(h)))
  {
    HandleKeepsToken(s, t, h);
    HandleMovesView(s, t, h);
    CarriedIs(s, t);
    assert Entitled(s.handlers[h]) ==> t == WithHandler(h);
    HandledKeepsOrder(ViewOf(s), s.handlers[h]);
  }

  lemma GoodKept(s: State, t: Token, a: Action)
    requires Good(s, t)
    ensures Good(Do(s, a), Moved(s, t, a))
  {
    match a
    case Send =>
      SendKeepsToken(s, t);
      SendMovesView(s, t);
      SendKeepsOrder(ViewOf(s), s.sender);
    case Handle(h) =>
      if h in s.handlers {
        HandleKeeps(s, t, h);
      }
    case _ =>
      OtherKeepsView(s, t, a);
  }

  lemma StepKeeps(s: State, a: Action)
    requires Inv(s)
    ensures Inv(Do(s, a))
  {
    var t :| Good(s, t);
    GoodKept(s, t, a);
  }

  lemma AlwaysInv(acts: seq<Action>)
    ensures Inv(Reached(acts))
  {
    CarriedIs(FRESH, Resting);
    assert Good(FRESH, Resting);
    forall s, a | Inv(s)
      ensures Inv(Do(s, a))
    {
      StepKeeps(s, a);
    }
    Invariance(Do, Inv, FRESH, acts);
  }
}
