/**
 * How a connection ends: what closes its peer, what stops its write loop, how its serving thread
 * gets to know, and that its teardown never has to wait for anybody else.
 */
module Lifecycle {
  import opened Messages
  import opened HubTables
  import opened Mailbox
  import opened Network
  import opened NetworkInvariant
  import opened RunHistory

  // ----- what closes and what stops -----

  /**
   * Exactly what closes an open peer: a message handed over while 32 are queued, a failed write, or
   * a failed ping.
   */
  lemma ClosedExactlyBy(ss: seq<State>, es: seq<Event>, n: nat, c: nat)
    requires IsRun(ss, es) && n < |es| && c < |ss[n].boxes| && !ss[n].boxes[c].closed
    ensures c < |ss[n + 1].boxes|
    ensures ss[n + 1].boxes[c].closed <==>
              || (HandsOver(ss[n], es[n], c, |ss[n].boxes[c].sent|) && |ss[n].boxes[c].queue| == 32)
              || es[n] == Write(c, WriteFail) || es[n] == Write(c, PingFail)
  {
    RunStep(ss, es, n);
    StepCloses(ss[n], es[n], c);
  }

  lemma StepCloses(s: State, e: Event, c: nat)
    requires Enabled(s, e) && c < |s.boxes| && Sound(s.boxes[c]) && !s.boxes[c].closed
    ensures c < |Step(s, e).boxes|
    ensures Step(s, e).boxes[c].closed <==>
              || (HandsOver(s, e, c, |s.boxes[c].sent|) && |s.boxes[c].queue| == 32)
              || e == Write(c, WriteFail) || e == Write(c, PingFail)
  {
    if e.Perform? && s.conns[e.c].outbox[0].to == c {
      SendExact(s.boxes[c], NextLetter(s, e));
    }
  }

  /** Exactly what stops a write loop: a failed write, a failed ping, or an end it is told of. */
  lemma StoppedExactlyBy(ss: seq<State>, es: seq<Event>, n: nat, c: nat)
    requires IsRun(ss, es) && n < |es| && c < |ss[n].boxes| && !ss[n].boxes[c].writer.Stopped?
    ensures c < |ss[n + 1].boxes|
    ensures ss[n + 1].boxes[c].writer.Stopped? <==>
              es[n].Write? && es[n].c == c && (es[n].turn.WriteFail? || es[n].turn.PingFail? || es[n].turn.Quit?)
    ensures es[n].Write? && es[n].c == c && es[n].turn.Quit? ==>
              c < |ss[n].conns| && (ss[n].conns[c].cancelled || ss[n].boxes[c].closed)
  {
    RunStep(ss, es, n);
    StepStops(ss[n], es[n], c);
  }

  lemma StepStops(s: State, e: Event, c: nat)
    requires Enabled(s, e) && c < |s.boxes| && !s.boxes[c].writer.Stopped?
    ensures c < |Step(s, e).boxes|
    ensures Step(s, e).boxes[c].writer.Stopped? <==>
              e.Write? && e.c == c && (e.turn.WriteFail? || e.turn.PingFail? || e.turn.Quit?)
  {
  }

  // ----- who gets to know -----

  /**
   * A write loop that has stopped has closed the peer or been cancelled; the end of the read loop,
   * and whatever wakes the serving thread, cancels; and only a woken thread whose loops have both
   * ended unregisters.
   */
  predicate Tied(k: Conn, b: Box<Letter>) {
    && (b.writer.Stopped? ==> b.closed || k.cancelled)
    && (k.phase == Drained || k.phase == Left ==> k.cancelled)
    && (k.woken ==> k.cancelled)
    && (k.phase == Left ==> k.woken && b.writer.Stopped?)
  }

  predicate AllTied(s: State) {
    && |s.boxes| == |s.conns|
    && forall c :: 0 <= c < |s.conns| ==> Tied(s.conns[c], s.boxes[c])
  }

  lemma HandTied(k: Conn, b: Box<Letter>, l: Letter)
    requires Tied(k, b)
    ensures Tied(k, Send(b, l))
  {
  }

  lemma TurnTied(k: Conn, b: Box<Letter>, t: Turn)
    requires Tied(k, b) && CanTurn(b, t) && (t.Quit? ==> t.done == k.cancelled)
    ensures Tied(k, TakeTurn(b, t))
  {
  }

  /** The steps that make no send and take no turn of a write loop. */
  lemma PlainStepTied(s: State, e: Event, c: nat)
    requires AllTied(s) && Enabled(s, e) && c < |s.conns| && !e.Perform? && !e.Write?
    requires s.boxes[c].writer.Idle? || s.conns[c].phase != Greeting
    ensures c < |Step(s, e).conns| && c < |Step(s, e).boxes| && Tied(Step(s, e).conns[c], Step(s, e).boxes[c])
  {
    assert Tied(s.conns[c], s.boxes[c]);
  }

  lemma StepTied(s: State, e: Event, c: nat)
    requires ConnsOk(s) && AllTied(s) && Enabled(s, e) && c < |s.conns|
    ensures c < |Step(s, e).conns| && c < |Step(s, e).boxes| && Tied(Step(s, e).conns[c], Step(s, e).boxes[c])
  {
    assert ConnOk(s, c) && Tied(s.conns[c], s.boxes[c]);
    if e.Perform? {
      HandTied(s.conns[c], s.boxes[c], Stamp(s.boxes[c], e.c, s.conns[e.c].outbox[0].msg));
    } else if e.Write? {
      if e.c == c {
        TurnTied(s.conns[c], s.boxes[c], e.turn);
      }
    } else {
      PlainStepTied(s, e, c);
    }
  }

  lemma {:induction false} ReachableTied(ss: seq<State>, es: seq<Event>, n: nat)
    requires IsRun(ss, es) && n < |ss|
    ensures AllTied(ss[n])
  {
    if n > 0 {
      ReachableTied(ss, es, n - 1);
      RunStep(ss, es, n - 1);
      RunStepTied(ss[n - 1], es[n - 1]);
    }
  }

  lemma RunStepTied(s: State, e: Event)
    requires ConnsOk(s) && AllTied(s) && Enabled(s, e)
    ensures AllTied(Step(s, e))
  {
    SizesTogether(s, e);
    forall c | 0 <= c < |Step(s, e).conns|
      ensures Tied(Step(s, e).conns[c], Step(s, e).boxes[c])
    {
      if c < |s.conns| {
        StepTied(s, e, c);
      }
    }
  }

  /**
   * A connection does not stay on with a dead loop: when its write loop has stopped, for whatever
   * reason, or its read loop has returned, its serving thread can wake.
   */
  lemma DeadLoopWakes(ss: seq<State>, es: seq<Event>, n: nat, c: nat)
    requires IsRun(ss, es) && n < |ss| && c < |ss[n].conns|
    requires ss[n].conns[c].phase == Serving || ss[n].conns[c].phase == Drained
    ensures c < |ss[n].boxes|
    ensures ss[n].boxes[c].writer.Stopped? || ss[n].conns[c].phase == Drained ==> Enabled(ss[n], Wake(c))
  {
    ReachableTied(ss, es, n);
    assert Tied(ss[n].conns[c], ss[n].boxes[c]);
  }

  lemma StepStaysCancelled(s: State, e: Event, c: nat)
    requires Enabled(s, e) && c < |s.conns|
    ensures c < |Step(s, e).conns|
    ensures s.conns[c].cancelled || (e.Cancel? && e.c == c) || (e.ReadEnd? && e.c == c) || (e.Wake? && e.c == c) <==>
              Step(s, e).conns[c].cancelled
  {
  }

  lemma RunStepCancels(ss: seq<State>, es: seq<Event>, n: nat, c: nat)
    requires IsRun(ss, es) && n < |es| && c < |ss[n].conns|
    ensures c < |ss[n + 1].conns|
    ensures ss[n + 1].conns[c].cancelled <==>
              ss[n].conns[c].cancelled || es[n] == Cancel(c) || es[n] == ReadEnd(c) || es[n] == Wake(c)
  {
    RunStep(ss, es, n);
    StepStaysCancelled(ss[n], es[n], c);
  }

  lemma {:induction false} StaysCancelled(ss: seq<State>, es: seq<Event>, m: nat, n: nat, c: nat)
    requires IsRun(ss, es) && m <= n < |ss| && c < |ss[m].conns| && ss[m].conns[c].cancelled
    ensures c < |ss[n].conns| && ss[n].conns[c].cancelled
    decreases n - m
  {
    if m < n {
      StaysCancelled(ss, es, m, n - 1, c);
      RunStepCancels(ss, es, n - 1, c);
    }
  }

  /**
   * A connection's context is ended by exactly three things, a cancellation from outside, the end
   * of its read loop and the waking of its serving thread, and it stays ended: from then on the
   * write loop can quit whenever it selects, and the serving thread can wake.
   */
  lemma CancelReaches(ss: seq<State>, es: seq<Event>, m: nat, n: nat, c: nat)
    requires IsRun(ss, es) && m < |es| && m < n < |ss| && c < |ss[m].conns|
    ensures c < |ss[n].conns| && c < |ss[n].boxes|
    ensures c < |ss[m + 1].conns|
    ensures ss[m + 1].conns[c].cancelled <==>
              ss[m].conns[c].cancelled || es[m] == Cancel(c) || es[m] == ReadEnd(c) || es[m] == Wake(c)
    ensures ss[m + 1].conns[c].cancelled ==>
              && ss[n].conns[c].cancelled
              && (ss[n].boxes[c].writer.Selecting? ==> Enabled(ss[n], Write(c, Quit(true))))
              && (ss[n].conns[c].phase == Serving || ss[n].conns[c].phase == Drained ==> Enabled(ss[n], Wake(c)))
  {
    RunStepCancels(ss, es, m, c);
    RunGrows(ss, es, m, n);
    ReachableInv(ss, es, n);
    if ss[m + 1].conns[c].cancelled {
      StaysCancelled(ss, es, m + 1, n, c);
    }
  }

  /** Whoever unregisters has been woken, cancelled, and outlived both its loops. */
  lemma UnregisterAfterLoops(ss: seq<State>, es: seq<Event>, n: nat, c: nat, order: seq<SessionId>)
    requires IsRun(ss, es) && n < |es| && es[n] == Leave(c, order)
    ensures c < |ss[n].conns| && c < |ss[n].boxes|
    ensures ss[n].conns[c].phase == Drained && ss[n].boxes[c].writer.Stopped?
    ensures ss[n].conns[c].woken && ss[n].conns[c].cancelled
    ensures ss[n + 1].conns[c].phase == Left
  {
    RunStep(ss, es, n);
    ReachableTied(ss, es, n);
    assert Tied(ss[n].conns[c], ss[n].boxes[c]);
  }

  // ----- teardown -----

  /** All events from number `from` on are moves of the connection `c` itself. */
  predicate OwnMoves(es: seq<Event>, from: nat, c: nat) {
    forall k :: from <= k < |es| ==> !es[k].Arrive? && es[k].c == c
  }

  /** One more move of `c` itself. */
  lemma Move(ss: seq<State>, es: seq<Event>, e: Event, from: nat, c: nat)
      returns (ss': seq<State>, es': seq<Event>)
    requires IsRun(ss, es) && Enabled(ss[|es|], e) && from <= |es| && OwnMoves(es, from, c) && !e.Arrive? && e.c == c
    ensures IsRun(ss', es') && ss <= ss' && es <= es' && OwnMoves(es', from, c)
    ensures ss'[|es'|] == Step(ss[|es|], e)
  {
    ss', es' := Do(ss, es, e);
  }

  /** `c` makes all the sends it owes. */
  lemma {:induction false} SendAllOwed(ss: seq<State>, es: seq<Event>, from: nat, c: nat)
      returns (ss': seq<State>, es': seq<Event>)
    requires IsRun(ss, es) && from <= |es| && OwnMoves(es, from, c)
    requires c < |ss[|es|].conns| && c < |ss[|es|].boxes|
    ensures IsRun(ss', es') && ss <= ss' && es <= es' && OwnMoves(es', from, c)
    ensures c < |ss'[|es'|].conns| && c < |ss'[|es'|].boxes| && ss'[|es'|].conns[c].outbox == []
    ensures ss'[|es'|].conns[c].phase == ss[|es|].conns[c].phase && ss'[|es'|].conns[c].id == ss[|es|].conns[c].id
    decreases |ss[|es|].conns[c].outbox|
  {
    if ss[|es|].conns[c].outbox == [] {
      ss', es' := ss, es;
    } else {
      ss', es' := Move(ss, es, Perform(c), from, c);
      ss', es' := SendAllOwed(ss', es', from, c);
    }
  }

  /** From any phase between `Register` and `Unregister`, the read loop can be over. */
  lemma EndReading(ss: seq<State>, es: seq<Event>, from: nat, c: nat) returns (ss': seq<State>, es': seq<Event>)
    requires IsRun(ss, es) && from <= |es| && OwnMoves(es, from, c)
    requires c < |ss[|es|].conns| && c < |ss[|es|].boxes| && Enrolled(ss[|es|].conns[c].phase)
    ensures IsRun(ss', es') && ss <= ss' && es <= es' && OwnMoves(es', from, c)
    ensures c < |ss'[|es'|].conns| && c < |ss'[|es'|].boxes|
    ensures ss'[|es'|].conns[c].phase == Drained && ss'[|es'|].conns[c].id == ss[|es|].conns[c].id
  {
    ss', es' := SendAllOwed(ss, es, from, c);
    if ss'[|es'|].conns[c].phase == Greeting {
      ss', es' := Move(ss', es', Start(c), from, c);
    }
    if ss'[|es'|].conns[c].phase == Serving {
      ss', es' := Move(ss', es', ReadEnd(c), from, c);
    }
  }

  /** The write loop of a connection whose read loop is over can stop. */
  lemma EndWriting(ss: seq<State>, es: seq<Event>, from: nat, c: nat) returns (ss': seq<State>, es': seq<Event>)
    requires IsRun(ss, es) && from <= |es| && OwnMoves(es, from, c)
    requires c < |ss[|es|].conns| && c < |ss[|es|].boxes| && ss[|es|].conns[c].phase == Drained
    ensures IsRun(ss', es') && ss <= ss' && es <= es' && OwnMoves(es', from, c)
    ensures c < |ss'[|es'|].conns| && c < |ss'[|es'|].boxes| && ss'[|es'|].boxes[c].writer.Stopped?
    ensures ss'[|es'|].conns[c] == ss[|es|].conns[c]
  {
    ReachableInv(ss, es, |es|);
    ReachableTied(ss, es, |es|);
    assert ConnOk(ss[|es|], c) && Tied(ss[|es|].conns[c], ss[|es|].boxes[c]);
    ss', es' := ss, es;
    if ss[|es|].boxes[c].writer.Writing? {
      ss', es' := Move(ss, es, Write(c, WriteFail), from, c);
    } else if ss[|es|].boxes[c].writer.Selecting? {
      ss', es' := Move(ss, es, Write(c, Quit(true)), from, c);
    }
  }

  /** Some order of ranging over a set of keys. */
  lemma {:induction false} SomeOrder(keys: set<SessionId>) returns (order: seq<SessionId>)
    ensures Enumerates(order, keys)
  {
    if keys == {} {
      order := [];
    } else {
      var x :| x in keys;
      var rest := SomeOrder(keys - {x});
      order := rest + [x];
      assert x !in (set y | y in rest);
      forall y
        ensures y in order <==> y in keys
      {
        assert y in (set z | z in rest) <==> y in keys - {x};
      }
      assert (set y | y in order) == keys;
    }
  }

  /**
   * Teardown never deadlocks and waits for nobody: in whatever state a run has got to, a registered
   * connection can, by moves of its own alone, end both loops, unregister and free its id.
   */
  lemma TeardownPossible(ss: seq<State>, es: seq<Event>, c: nat) returns (ss': seq<State>, es': seq<Event>)
    requires IsRun(ss, es) && c < |ss[|es|].conns| && Enrolled(ss[|es|].conns[c].phase)
    ensures IsRun(ss', es') && ss <= ss' && es <= es' && OwnMoves(es', |es|, c)
    ensures c < |ss'[|es'|].conns| && ss'[|es'|].conns[c].phase == Left
    ensures ss[|es|].conns[c].id !in ss'[|es'|].tables.peers
  {
    ReachableInv(ss, es, |es|);
    ss', es' := EndReading(ss, es, |es|, c);
    ss', es' := EndWriting(ss', es', |es|, c);
    ReachableTied(ss', es', |es'|);
    assert Tied(ss'[|es'|].conns[c], ss'[|es'|].boxes[c]);
    ss', es' := Move(ss', es', Wake(c), |es|, c);
    var order := SomeOrder(ss'[|es'|].tables.sessions.Keys);
    ss', es' := Move(ss', es', Leave(c, order), |es|, c);
  }
}
