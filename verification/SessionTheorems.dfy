/** What every schedule of one session guarantees, and what it does not. */
module SessionTheorems {
  import opened Runs
  import opened SessionTypes
  import opened UserInstanceSteps
  import opened Delivery

  // ---------------------------------------------------------------- exclusion and quiescence

  /** In every reachable state the right to write is in exactly one place, so at most one `Write` is
      outstanding, and whoever is about to call `Write` finds none outstanding. */
  lemma WriteExclusion(acts: seq<Action>) returns (t: Token)
    ensures var s := Reached(acts);
            && TokenIs(s, t) && (forall u :: TokenIs(s, u) ==> u == t)
            && s.inFlight <= 1
            && (s.sender.ToWrite? ==> s.inFlight == 0)
            && (forall h :: h in s.handlers && s.handlers[h].Stored? ==> s.inFlight == 0)
  {
    AlwaysInv(acts);
    var s := Reached(acts);
    t :| Good(s, t);
    forall h | h in s.handlers && s.handlers[h].Stored?
      ensures s.inFlight == 0
    {
      assert Entitled(s.handlers[h]);
    }
    forall u | TokenIs(s, u)
      ensures u == t
    {
      TokenUnique(s, t, u);
    }
  }

  lemma TokenUnique(s: State, t: Token, u: Token)
    requires TokenIs(s, t) && TokenIs(s, u)
    ensures t == u
  {
    if t.WithHandler? {
      assert t.h in s.handlers && Entitled(s.handlers[t.h]);
      assert u == WithHandler(t.h);
    }
    if u.WithHandler? {
      assert u.h in s.handlers && Entitled(s.handlers[u.h]);
      assert t == WithHandler(u.h);
    }
  }

  lemma TokenIsOk(acts: seq<Action>, t: Token)
    requires TokenIs(Reached(acts), t)
    ensures TokenOk(Reached(acts), t)
  {
    AlwaysInv(acts);
    var u :| Good(Reached(acts), u);
    TokenUnique(Reached(acts), t, u);
  }

  /** A completion never finds SHUTDOWN: the early return of `OnAsyncEventFinished` is dead code. */
  lemma CompletionNeverSeesShutdown(acts: seq<Action>, h: Tid)
    requires h in Reached(acts).handlers && Reached(acts).handlers[h].Succeeded?
    ensures Reached(acts).flag != SHUTDOWN
  {
    AlwaysInv(acts);
    var s := Reached(acts);
    var t :| Good(s, t);
    assert Entitled(s.handlers[h]);
  }

  /** The store of WRITING in `OnAsyncEventFinished` changes nothing: the state is WRITING already. */
  lemma WritingStoreChangesNothing(acts: seq<Action>, h: Tid)
    requires h in Reached(acts).handlers && Reached(acts).handlers[h].Popped?
    ensures Reached(acts).flag == WRITING
  {
    AlwaysInv(acts);
    var s := Reached(acts);
    var t :| Good(s, t);
    assert Entitled(s.handlers[h]);
  }

  lemma FinishedStepWritesNothing(s: State, a: Action)
    requires Inv(s) && s.finished
    ensures Do(s, a).finished && Do(s, a).written == s.written && Do(s, a).inFlight == 0
    ensures s.queue <= Do(s, a).queue
  {
    var t :| Good(s, t);
    assert t == Dead;
    if a.Handle? && a.h in s.handlers {
      assert !Entitled(s.handlers[a.h]);
    }
  }

  /** Once `OnFinished` has stored SHUTDOWN nothing is ever written again, whatever state a racing sender
      stores afterwards; what is queued, then or later, stays in the queue for ever. */
  lemma {:induction false} NoWriteAfterFinish(acts: seq<Action>, more: seq<Action>)
    requires Reached(acts).finished
    ensures Reached(acts + more).finished && Reached(acts + more).written == Reached(acts).written
    ensures Reached(acts + more).inFlight == 0 && Reached(acts).queue <= Reached(acts + more).queue
    decreases |more|
  {
    AlwaysInv(acts);
    if more == [] {
      assert acts + more == acts;
      var t :| Good(Reached(acts), t);
    } else {
      var n := |more| - 1;
      NoWriteAfterFinish(acts, more[..n]);
      AlwaysInv(acts + more[..n]);
      assert acts + more == acts + more[..n] + [more[n]];
      Snoc(Do, FRESH, acts + more[..n], more[n]);
      FinishedStepWritesNothing(Reached(acts + more[..n]), more[n]);
    }
  }

  lemma ShutdownStays(s: State, a: Action)
    requires Inv(s) && s.finished && s.flag == SHUTDOWN && !s.sender.Loaded?
    ensures Do(s, a).flag == SHUTDOWN && !Do(s, a).sender.Loaded?
  {
    var t :| Good(s, t);
    assert t == Dead;
    if a.Handle? && a.h in s.handlers {
      assert !Entitled(s.handlers[a.h]);
    }
  }

  lemma {:induction false} ShutdownAbsorbs(acts: seq<Action>, more: seq<Action>)
    requires var s := Reached(acts); s.finished && s.flag == SHUTDOWN && !s.sender.Loaded?
    ensures Reached(acts + more).flag == SHUTDOWN && !Reached(acts + more).sender.Loaded?
    decreases |more|
  {
    if more == [] {
      assert acts + more == acts;
    } else {
      var n := |more| - 1;
      ShutdownAbsorbs(acts, more[..n]);
      NoWriteAfterFinish(acts, more[..n]);
      AlwaysInv(acts + more[..n]);
      assert acts + more == acts + more[..n] + [more[n]];
      Snoc(Do, FRESH, acts + more[..n], more[n]);
      ShutdownStays(Reached(acts + more[..n]), more[n]);
    }
  }

  /** When SHUTDOWN, once stored, stays: exactly when no sender is past its load and before its exchange. */
  lemma ShutdownAbsorbsExactlyWhen(acts: seq<Action>)
    requires Reached(acts).finished
    ensures (forall more :: Reached(acts + more).flag == SHUTDOWN) <==>
            Reached(acts).flag == SHUTDOWN && !Reached(acts).sender.Loaded?
  {
    if Reached(acts).flag == SHUTDOWN && !Reached(acts).sender.Loaded? {
      forall more
        ensures Reached(acts + more).flag == SHUTDOWN
      {
        ShutdownAbsorbs(acts, more);
      }
    } else if Reached(acts).flag == SHUTDOWN {
      Snoc(Do, FRESH, acts, Send);
      assert Reached(acts + [Send]).flag == WRITING;
    } else {
      assert Reached(acts + []).flag != SHUTDOWN by {
        assert acts + [] == acts;
      }
    }
  }

  // ---------------------------------------------------------------- order

  /** Place `i` holds its own ticket or is swapped with a neighbour. */
  ghost predicate Paired(line: seq<Item>, i: int)
    requires 0 <= i < |line|
  {
    || line[i].ticket == i
    || (i + 1 < |line| && line[i].ticket == i + 1 && line[i + 1].ticket == i)
    || (i > 0 && line[i].ticket == i - 1 && line[i - 1].ticket == i)
  }

  lemma {:induction false} NearOrderPairs(line: seq<Item>, n: nat, i: nat)
    requires i < n <= |line| && NearOrderTo(line, n)
    ensures Paired(line, i)
  {
    if line[n - 1].ticket == n - 1 && NearOrderTo(line, n - 1) {
      if i < n - 1 {
        NearOrderPairs(line, n - 1, i);
      }
    } else if i < n - 2 {
      NearOrderPairs(line, n - 2, i);
    }
  }

  lemma {:induction false} PairsNearOrder(line: seq<Item>, n: nat)
    requires n <= |line|
    requires forall i :: 0 <= i < n ==> Paired(line, i)
    requires n < |line| ==> n == 0 || line[n - 1].ticket != n
    ensures NearOrderTo(line, n)
  {
    if n > 0 {
      assert Paired(line, n - 1);
      if line[n - 1].ticket == n - 1 {
        assert n > 1 ==> Paired(line, n - 2);
        PairsNearOrder(line, n - 1);
      } else {
        assert Paired(line, n - 2);
        assert n > 2 ==> Paired(line, n - 3);
        PairsNearOrder(line, n - 2);
      }
    }
  }

  /** The recursive definition of near-order says exactly that every place holds its own ticket or
      that of the neighbour it is swapped with. */
  lemma NearOrderMeans(line: seq<Item>)
    ensures NearOrder(line) <==> forall i :: 0 <= i < |line| ==> Paired(line, i)
  {
    if NearOrder(line) {
      forall i | 0 <= i < |line|
        ensures Paired(line, i)
      {
        NearOrderPairs(line, |line|, i);
      }
    }
    if forall i :: 0 <= i < |line| ==> Paired(line, i) {
      PairsNearOrder(line, |line|);
    }
  }

  lemma LineIsNear(v: View)
    requires OrderOk(v)
    ensures NearOrder(v.Line())
  {
    if v.unpushed != [] {
      assert v.Line() == v.Settled() + [v.unpushed[0]];
      NearSnoc(v.Settled(), v.unpushed[0]);
    } else if v.chosen == [] {
      assert v.Line() == v.Settled();
    } else if v.queue == [] {
      assert v.Line() == v.Settled() + [v.chosen[0]];
      NearSnoc(v.Settled(), v.chosen[0]);
    } else {
      assert v.queue == [v.queue[0]] && v.chosen == [v.chosen[0]];
      assert v.Settled() == v.written + [v.queue[0]];
      assert v.Line() == v.written + [v.chosen[0]] + [v.queue[0]];
      NearSwap(v.written, v.queue[0], v.chosen[0]);
    }
  }

  /** What is written, then what is about to be, then what is carried, queued and about to be queued,
      is the send order up to disjoint swaps of neighbours; nothing is lost, added or altered. */
  lemma NearFifo(acts: seq<Action>)
    ensures var s := Reached(acts); var line := Line(s);
            && |line| == |s.sent|
            && (forall i :: 0 <= i < |line| ==> Paired(line, i))
            && Faithful(line, s.sent)
            && s.written <= line
  {
    AlwaysInv(acts);
    LineIsNear(ViewOf(Reached(acts)));
    NearOrderMeans(Line(Reached(acts)));
  }

  /** No event is overtaken by more than one later event, and none overtakes more than one. */
  lemma OvertakenAtMostOnce(acts: seq<Action>, i: nat, j: nat, k: nat)
    requires var line := Line(Reached(acts)); i < |line| && j < |line| && k < |line|
    ensures var line := Line(Reached(acts));
            && (j < i && k < i && line[j].ticket > line[i].ticket && line[k].ticket > line[i].ticket ==> j == k)
            && (j > i && k > i && line[j].ticket < line[i].ticket && line[k].ticket < line[i].ticket ==> j == k)
  {
    NearFifo(acts);
    var line := Line(Reached(acts));
    assert Paired(line, i) && Paired(line, j) && Paired(line, k);
  }

  lemma {:induction false} NoSwapsInOrder(line: seq<Item>, n: nat)
    requires n <= |line| && NearOrderTo(line, n)
    ensures SwapsTo(line, n) == 0 <==> forall i :: 0 <= i < n ==> line[i].ticket == i
  {
    if n > 0 {
      if line[n - 1].ticket == n - 1 && NearOrderTo(line, n - 1) {
        NoSwapsInOrder(line, n - 1);
      } else {
        assert SwapsTo(line, n) >= SwapsTo(line, n - 1) >= 1;
        assert line[n - 1].ticket != n - 1;
      }
    }
  }

  /** Exactly when delivery is first in, first out: no exchange found IDLE above a non-empty queue.
      Each such exchange swaps one pair, and each needs a strand of its own: an IDLE stored between
      a sender's exchange and its push. */
  lemma FifoExactlyWhen(acts: seq<Action>)
    ensures var s := Reached(acts);
            && (InOrder(Line(s)) <==> s.overtakes == 0)
            && Swaps(Line(s)) == s.overtakes <= s.strands
  {
    AlwaysInv(acts);
    var line := Line(Reached(acts));
    LineIsNear(ViewOf(Reached(acts)));
    NoSwapsInOrder(line, |line|);
  }

  /** IDLE leaves at most one event pending, in the queue or in the hand of a sender about to push;
      without a strand it leaves none, and what is written is a prefix of what was sent. */
  lemma StrandingBound(acts: seq<Action>)
    ensures var s := Reached(acts);
            && (s.flag == IDLE ==> |s.queue| + |Unpushed(s)| <= 1 && Carried(s) == [])
            && (s.strands == 0 && s.flag == IDLE ==> s.queue == Unpushed(s) == [])
            && (s.strands == 0 ==> |s.written| <= |s.sent| && EventsOf(s.written) == s.sent[..|s.written|])
  {
    AlwaysInv(acts);
    NearFifo(acts);
    FifoExactlyWhen(acts);
    var s := Reached(acts);
    var line := Line(s);
    if s.strands == 0 {
      forall i | 0 <= i < |s.written|
        ensures s.written[i].event == s.sent[i]
      {
        assert s.written[i] == line[i];
      }
    }
  }

  lemma HandlerStrands(s: State, h: Tid)
    requires h in s.handlers
    ensures var s' := HandlerEffect(s, h);
            s'.strands == s.strands || (s'.strands > s.strands && s'.flag == IDLE && s'.sender.ToPush?)
  {}

  lemma StrandsGrow(s: State, a: Action)
    ensures Do(s, a).strands >= s.strands
    ensures Do(s, a).strands > s.strands ==> Do(s, a).flag == IDLE && Unpushed(Do(s, a)) != []
  {
    if a.Handle? {
      if a.h in s.handlers {
        HandlerStrands(s, a.h);
      }
    } else {
      assert Do(s, a).strands == s.strands;
    }
  }

  /** When an idle session has nothing pending, all along a run: exactly when no IDLE was ever stored between a
      sender's exchange and its push. */
  lemma {:induction false} IdleIsEmptyExactlyWhen(acts: seq<Action>)
    ensures Reached(acts).strands == 0 <==> Throughout(Do, NothingPendingIfIdle, FRESH, acts)
    decreases |acts|
  {
    StrandingBound(acts);
    if acts == [] {
      assert forall i :: 0 <= i <= |acts| ==> acts[..i] == [];
    } else {
      var before := acts[..|acts| - 1];
      IdleIsEmptyExactlyWhen(before);
      StrandsGrow(Reached(before), acts[|acts| - 1]);
      ThroughoutSnoc(Do, NothingPendingIfIdle, FRESH, acts);
    }
  }

  ghost predicate NothingPendingIfIdle(s: State) {
    s.flag == IDLE ==> s.queue == Unpushed(s) == []
  }

  // ---------------------------------------------------------------- conservation

  lemma EventsOfConcat(one: seq<Item>, two: seq<Item>)
    ensures EventsOf(one + two) == EventsOf(one) + EventsOf(two)
  {}

  lemma OneMore(a: seq<Event>, b: seq<Event>, n: nat)
    requires 1 <= n <= |a| && n <= |b| && multiset(a[..n - 1]) == multiset(b[..n - 1]) && a[n - 1] == b[n - 1]
    ensures multiset(a[..n]) == multiset(b[..n])
  {
    assert a[..n] == a[..n - 1] + [a[n - 1]] && b[..n] == b[..n - 1] + [b[n - 1]];
  }

  lemma TwoSwapped(a: seq<Event>, b: seq<Event>, n: nat)
    requires 2 <= n <= |a| && n <= |b| && multiset(a[..n - 2]) == multiset(b[..n - 2])
    requires a[n - 1] == b[n - 2] && a[n - 2] == b[n - 1]
    ensures multiset(a[..n]) == multiset(b[..n])
  {
    assert a[..n] == a[..n - 2] + [a[n - 2], a[n - 1]] && b[..n] == b[..n - 2] + [b[n - 2], b[n - 1]];
  }

  lemma {:induction false} PermutesPrefix(line: seq<Item>, sent: seq<Event>, n: nat)
    requires n <= |line| == |sent| && NearOrderTo(line, n) && Faithful(line, sent)
    ensures multiset(EventsOf(line)[..n]) == multiset(sent[..n])
  {
    if n > 0 {
      assert line[n - 1].event == sent[line[n - 1].ticket];
      if line[n - 1].ticket == n - 1 && NearOrderTo(line, n - 1) {
        PermutesPrefix(line, sent, n - 1);
        OneMore(EventsOf(line), sent, n);
      } else {
        assert line[n - 2].event == sent[line[n - 2].ticket];
        PermutesPrefix(line, sent, n - 2);
        TwoSwapped(EventsOf(line), sent, n);
      }
    }
  }

  /** Accepted events are, as a multiset, those written, queued or in somebody's hand. */
  lemma Conservation(acts: seq<Action>)
    ensures var s := Reached(acts);
            multiset(s.sent) == multiset(EventsOf(s.written)) + multiset(EventsOf(s.queue))
              + multiset(EventsOf(Chosen(s) + Carried(s) + Unpushed(s)))
  {
    AlwaysInv(acts);
    var s := Reached(acts);
    var line := Line(s);
    LineIsNear(ViewOf(s));
    PermutesPrefix(line, s.sent, |line|);
    assert EventsOf(line)[..|line|] == EventsOf(line);
    assert s.sent[..|line|] == s.sent;
    EventsOfConcat(s.written + Chosen(s) + Carried(s) + s.queue, Unpushed(s));
    EventsOfConcat(s.written + Chosen(s) + Carried(s), s.queue);
    EventsOfConcat(s.written + Chosen(s), Carried(s));
    EventsOfConcat(s.written, Chosen(s));
    EventsOfConcat(Chosen(s) + Carried(s), Unpushed(s));
    EventsOfConcat(Chosen(s), Carried(s));
  }
}
