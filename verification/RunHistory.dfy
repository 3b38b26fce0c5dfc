/**
 * Runs looked at as histories: what a run has recorded stays, and everything recorded has the one
 * step that recorded it.
 */
module RunHistory {
  import opened Messages
  import opened HubTables
  import opened Network
  import opened NetworkInvariant

  // ----- histories only grow -----

  predicate ConnGrows(k: Conn, k': Conn) {
    k'.id == k.id && k.performed <= k'.performed
  }

  predicate ConnsGrow(s: State, s': State) {
    && |s.conns| <= |s'.conns|
    && forall c :: 0 <= c < |s.conns| ==> ConnGrows(s.conns[c], s'.conns[c])
  }

  predicate BoxesGrow(s: State, s': State) {
    && |s.boxes| <= |s'.boxes|
    && forall c :: 0 <= c < |s.boxes| ==> s.boxes[c].sent <= s'.boxes[c].sent
  }

  predicate SessionsGrow(s: State, s': State) {
    && (forall sid :: sid in s.records ==> sid in s'.records && s'.records[sid] == s.records[sid])
    && (forall sid :: sid in s.removed ==> sid in s'.removed && s'.removed[sid] == s.removed[sid])
  }

  predicate Grows(s: State, s': State) {
    ConnsGrow(s, s') && BoxesGrow(s, s') && SessionsGrow(s, s')
  }

  lemma ConnsGrowFurther(a: State, b: State, c: State)
    requires ConnsGrow(a, b) && ConnsGrow(b, c)
    ensures ConnsGrow(a, c)
  {
    forall k | 0 <= k < |a.conns|
      ensures ConnGrows(a.conns[k], c.conns[k])
    {
      assert ConnGrows(a.conns[k], b.conns[k]) && ConnGrows(b.conns[k], c.conns[k]);
    }
  }

  lemma BoxesGrowFurther(a: State, b: State, c: State)
    requires BoxesGrow(a, b) && BoxesGrow(b, c)
    ensures BoxesGrow(a, c)
  {
    forall k | 0 <= k < |a.boxes|
      ensures a.boxes[k].sent <= c.boxes[k].sent
    {
      assert a.boxes[k].sent <= b.boxes[k].sent && b.boxes[k].sent <= c.boxes[k].sent;
    }
  }

  lemma SessionsGrowFurther(a: State, b: State, c: State)
    requires SessionsGrow(a, b) && SessionsGrow(b, c)
    ensures SessionsGrow(a, c)
  {
  }

  lemma StepGrowsConns(s: State, e: Event)
    requires Enabled(s, e)
    ensures ConnsGrow(s, Step(s, e))
  {
  }

  lemma StepGrowsBoxes(s: State, e: Event)
    requires Enabled(s, e)
    ensures BoxesGrow(s, Step(s, e))
  {
  }

  lemma ReadGrowsSessions(s: State, c: nat, req: Request, newSid: SessionId)
    requires RecordsOk(s) && c < |s.conns| && newSid !in s.records
    ensures SessionsGrow(s, ReadStep(s, c, req, newSid))
  {
    if req.Bye? && req.session in s.tables.sessions {
      assert RecordOk(s, req.session);
    }
  }

  lemma LeaveGrowsSessions(s: State, c: nat, order: seq<SessionId>)
    requires RecordsOk(s) && c < |s.conns|
    ensures SessionsGrow(s, LeaveStep(s, c, order))
  {
    forall sid | sid in s.removed
      ensures sid !in s.tables.sessions
    {
      assert RecordOk(s, sid);
    }
  }

  lemma StepGrowsSessions(s: State, e: Event)
    requires RecordsOk(s) && Enabled(s, e)
    ensures SessionsGrow(s, Step(s, e))
  {
    if e.Read? {
      ReadGrowsSessions(s, e.c, e.req, e.newSid);
    } else if e.Leave? {
      LeaveGrowsSessions(s, e.c, e.order);
    } else {
      OtherStepsKeepSessions(s, e);
    }
  }

  lemma GrowsFurther(a: State, b: State, c: State)
    requires Grows(a, b) && Grows(b, c)
    ensures Grows(a, c)
  {
    ConnsGrowFurther(a, b, c);
    BoxesGrowFurther(a, b, c);
    SessionsGrowFurther(a, b, c);
  }

  lemma StepGrows(s: State, e: Event)
    requires RecordsOk(s) && Enabled(s, e)
    ensures Grows(s, Step(s, e))
  {
    StepGrowsConns(s, e);
    StepGrowsBoxes(s, e);
    StepGrowsSessions(s, e);
  }

  /** One step of a run. */
  lemma RunStep(ss: seq<State>, es: seq<Event>, n: nat)
    requires IsRun(ss, es) && n < |es|
    ensures Inv(ss[n]) && Inv(ss[n + 1]) && Enabled(ss[n], es[n]) && ss[n + 1] == Step(ss[n], es[n])
  {
    ReachableInv(ss, es, n);
    ReachableInv(ss, es, n + 1);
  }

  lemma RunStepGrows(ss: seq<State>, es: seq<Event>, n: nat)
    requires IsRun(ss, es) && n < |es|
    ensures Grows(ss[n], ss[n + 1])
  {
    RunStep(ss, es, n);
    StepGrows(ss[n], es[n]);
  }

  lemma GrowsSelf(s: State)
    ensures Grows(s, s)
  {
  }

  /** Growth along a stretch of states. */
  lemma {:induction false} ChainGrows(ss: seq<State>, m: nat, n: nat)
    requires m <= n < |ss| && forall k :: m <= k < n ==> Grows(ss[k], ss[k + 1])
    ensures Grows(ss[m], ss[n])
    decreases n - m
  {
    if m == n {
      GrowsSelf(ss[m]);
    } else {
      ChainGrows(ss, m, n - 1);
      assert Grows(ss[n - 1], ss[n - 1 + 1]);
      GrowsFurther(ss[m], ss[n - 1], ss[n]);
    }
  }

  lemma RunGrows(ss: seq<State>, es: seq<Event>, m: nat, n: nat)
    requires IsRun(ss, es) && m <= n < |ss|
    ensures Grows(ss[m], ss[n])
  {
    forall k | m <= k < n
      ensures Grows(ss[k], ss[k + 1])
    {
      RunStepGrows(ss, es, k);
    }
    ChainGrows(ss, m, n);
  }

  // ----- runs made step by step -----

  lemma Extend(ss: seq<State>, es: seq<Event>, e: Event, s': State)
    requires IsRun(ss, es) && Enabled(ss[|es|], e) && s' == Step(ss[|es|], e)
    ensures IsRun(ss + [s'], es + [e])
    ensures (ss + [s'])[|es + [e]|] == s'
  {
  }

  /** A run goes on with any enabled event. */
  lemma Do(ss: seq<State>, es: seq<Event>, e: Event) returns (ss': seq<State>, es': seq<Event>)
    requires IsRun(ss, es) && Enabled(ss[|es|], e)
    ensures IsRun(ss', es') && ss'[|es'|] == Step(ss[|es|], e)
    ensures ss' == ss + [ss'[|es'|]] && es' == es + [e]
  {
    var s' := Step(ss[|es|], e);
    Extend(ss, es, e, s');
    ss', es' := ss + [s'], es + [e];
  }

  // ----- the hand-over of a message -----

  /** `e` hands a message to `to`, as the `k`-th it is ever handed. */
  predicate HandsOver(s: State, e: Event, to: nat, k: nat) {
    && e.Perform? && Enabled(s, e) && to < |s.boxes|
    && s.conns[e.c].outbox[0].to == to && |s.boxes[to].sent| == k
  }

  /** The message a sender hands over next. */
  function NextLetter(s: State, e: Event): Letter
    requires e.Perform? && Enabled(s, e) && s.conns[e.c].outbox[0].to < |s.boxes|
  {
    Stamp(s.boxes[s.conns[e.c].outbox[0].to], e.c, s.conns[e.c].outbox[0].msg)
  }

  lemma StepHands(s: State, e: Event, to: nat)
    requires Enabled(s, e) && to < |Step(s, e).boxes|
    ensures if to < |s.boxes| && HandsOver(s, e, to, |s.boxes[to].sent|)
            then Step(s, e).boxes[to].sent == s.boxes[to].sent + [NextLetter(s, e)]
            else Step(s, e).boxes[to].sent == if to < |s.boxes| then s.boxes[to].sent else []
  {
  }

  lemma RunStepHands(ss: seq<State>, es: seq<Event>, n: nat, to: nat, k: nat)
    requires IsRun(ss, es) && n < |es| && to < |ss[n + 1].boxes| && k < |ss[n + 1].boxes[to].sent|
    ensures if to < |ss[n].boxes| && k < |ss[n].boxes[to].sent|
            then ss[n].boxes[to].sent <= ss[n + 1].boxes[to].sent
            else && HandsOver(ss[n], es[n], to, k)
                 && ss[n + 1].boxes[to].sent == ss[n].boxes[to].sent + [NextLetter(ss[n], es[n])]
  {
    RunStep(ss, es, n);
    StepHands(ss[n], es[n], to);
  }

  /** Every message handed over was handed over by one step, at the end of what came before. */
  lemma {:induction false} HandedAt(ss: seq<State>, es: seq<Event>, n: nat, to: nat, k: nat) returns (m: nat)
    requires IsRun(ss, es) && n < |ss| && to < |ss[n].boxes| && k < |ss[n].boxes[to].sent|
    ensures m < n && HandsOver(ss[m], es[m], to, k)
    ensures ss[m].boxes[to].sent == ss[n].boxes[to].sent[..k]
    ensures ss[n].boxes[to].sent[k] == NextLetter(ss[m], es[m])
  {
    if n == 0 {
      assert false;
    } else {
      RunStepHands(ss, es, n - 1, to, k);
      var s := ss[n - 1];
      if to < |s.boxes| && k < |s.boxes[to].sent| {
        m := HandedAt(ss, es, n - 1, to, k);
        assert ss[n].boxes[to].sent[..k] == s.boxes[to].sent[..k];
      } else {
        m := n - 1;
        assert ss[n].boxes[to].sent[..k] == s.boxes[to].sent;
      }
    }
  }

  // ----- the opening and the removal of a session -----

  /** `e` opens the session `sid` between its own connection and the one listed for the peer. */
  predicate Opens(s: State, e: Event, sid: SessionId) {
    e.Read? && Enabled(s, e) && e.newSid == sid && e.req.SessionReq? && e.req.peer in s.tables.peers
  }

  function OpenedRecord(s: State, e: Event): Record
    requires e.Read? && e.req.SessionReq? && e.req.peer in s.tables.peers
  {
    Record(e.c, s.tables.peers[e.req.peer])
  }

  lemma StepOpens(s: State, e: Event, sid: SessionId)
    requires Enabled(s, e) && sid in Step(s, e).records && sid !in s.records
    ensures Opens(s, e, sid) && Step(s, e).records[sid] == OpenedRecord(s, e)
  {
  }

  lemma RunStepOpens(ss: seq<State>, es: seq<Event>, n: nat, sid: SessionId)
    requires IsRun(ss, es) && n < |es| && sid in ss[n + 1].records
    ensures if sid in ss[n].records then ss[n + 1].records[sid] == ss[n].records[sid]
            else Opens(ss[n], es[n], sid) && ss[n + 1].records[sid] == OpenedRecord(ss[n], es[n])
  {
    RunStep(ss, es, n);
    if sid in ss[n].records {
      StepGrowsSessions(ss[n], es[n]);
    } else {
      StepOpens(ss[n], es[n], sid);
    }
  }

  lemma {:induction false} OpenedAt(ss: seq<State>, es: seq<Event>, n: nat, sid: SessionId) returns (r: nat)
    requires IsRun(ss, es) && n < |ss| && sid in ss[n].records
    ensures r < n && sid !in ss[r].records && Opens(ss[r], es[r], sid)
    ensures ss[n].records[sid] == OpenedRecord(ss[r], es[r])
  {
    if n == 0 {
      assert false;
    } else {
      RunStepOpens(ss, es, n - 1, sid);
      if sid in ss[n - 1].records {
        r := OpenedAt(ss, es, n - 1, sid);
      } else {
        r := n - 1;
      }
    }
  }

  /** `e` is the locked step that removes the live session `sid` for the given cause. */
  predicate Removes(s: State, e: Event, sid: SessionId, cause: Cause) {
    && Enabled(s, e) && sid in s.tables.sessions
    && match cause
       case ByBye(c, reason) => e.Read? && e.c == c && e.req == Bye(sid, reason)
       case ByDisconnect(c) => e.Leave? && e.c == c && Involves(s.tables.sessions[sid], s.conns[c].id)
  }

  lemma StepRemoves(s: State, e: Event, sid: SessionId)
    requires Enabled(s, e) && sid in Step(s, e).removed && sid !in s.removed
    ensures Removes(s, e, sid, Step(s, e).removed[sid])
  {
  }

  lemma {:induction false} RemovedAt(ss: seq<State>, es: seq<Event>, n: nat, sid: SessionId) returns (q: nat)
    requires IsRun(ss, es) && n < |ss| && sid in ss[n].removed
    ensures q < n && Removes(ss[q], es[q], sid, ss[n].removed[sid])
  {
    if n == 0 {
      assert false;
    } else {
      RunStep(ss, es, n - 1);
      if sid in ss[n - 1].removed {
        q := RemovedAt(ss, es, n - 1, sid);
        StepGrowsSessions(ss[n - 1], es[n - 1]);
      } else {
        q := n - 1;
        StepRemoves(ss[n - 1], es[n - 1], sid);
      }
    }
  }
}
