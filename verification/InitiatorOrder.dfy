/**
 * When the initiator's acknowledgement comes before the session's traffic. The acknowledgement
 * travels from the initiator's own thread and the traffic from the target's, so this joins two
 * threads: for arbitrary clients, and for clients that name a session only after they have been
 * acknowledged it.
 */
module InitiatorOrder {
  import opened Sequences
  import opened Messages
  import opened HubTables
  import opened Network
  import opened NetworkInvariant
  import opened RunHistory
  import opened SessionTheorems

  predicate IsAckOf(m: Msg, sid: SessionId) {
    m.Ack? && m.session == sid
  }

  ghost predicate AckHanded(s: State, c: nat, sid: SessionId)
    requires c < |s.boxes|
  {
    exists l :: l in s.boxes[c].sent && IsAckOf(l.msg, sid)
  }

  /** A frame names only sessions whose acknowledgement has been handed to its connection. */
  ghost predicate Polite(s: State, e: Event) {
    e.Read? && e.c < |s.boxes| ==> forall sid :: RequestNames(e.req, sid) ==> AckHanded(s, e.c, sid)
  }

  ghost predicate IsPoliteRun(ss: seq<State>, es: seq<Event>) {
    IsRun(ss, es) && forall k :: 0 <= k < |es| ==> Polite(ss[k], es[k])
  }

  // ----- program order of the two acknowledgements -----

  /** The target's acknowledgement is decided right after the initiator's, by the same thread. */
  predicate AckPaired(plan: seq<Delivery<nat>>, c: nat, k: int)
    requires 0 <= k < |plan|
  {
    plan[k].msg.Ack? && !plan[k].msg.initiator ==>
      k > 0 && plan[k - 1].to == c && IsAckOf(plan[k - 1].msg, plan[k].msg.session)
  }

  predicate AcksPaired(plan: seq<Delivery<nat>>, c: nat) {
    forall k :: 0 <= k < |plan| ==> AckPaired(plan, c, k)
  }

  predicate AllAcksPaired(s: State) {
    forall c :: 0 <= c < |s.conns| ==> AcksPaired(Plan(s.conns[c]), c)
  }

  lemma PairedConcat(plan: seq<Delivery<nat>>, ds: seq<Delivery<nat>>, c: nat)
    requires AcksPaired(plan, c) && AcksPaired(ds, c)
    ensures AcksPaired(plan + ds, c)
  {
    forall k | 0 <= k < |plan + ds|
      ensures AckPaired(plan + ds, c, k)
    {
      if k < |plan| {
        assert AckPaired(plan, c, k);
      } else {
        assert AckPaired(ds, c, k - |plan|);
      }
    }
  }

  lemma {:induction false} NoticesUnacked(order: seq<SessionId>, t: Tables<nat>, id: PeerId)
    ensures forall d <- Notices(order, t, id) :: d.msg.PeerGone?
  {
    if order != [] {
      NoticesUnacked(order[..|order| - 1], t, id);
    }
  }

  lemma DispatchAcksPaired(t: Tables<nat>, c: nat, id: PeerId, req: Request, newSid: SessionId, ice: seq<IceServer>)
    ensures AcksPaired(Dispatch(t, c, id, req, newSid, ice).sends, c)
  {
  }

  lemma NewSendsPaired(s: State, e: Event, c: nat)
    requires Enabled(s, e) && c < |s.conns| && c < |s.boxes| && ConnOk(s, c)
    ensures AcksPaired(NewSends(s, e, c), c)
  {
    if e.Read? && e.c == c {
      DispatchAcksPaired(s.tables, c, s.conns[c].id, e.req, e.newSid, s.ice);
    } else if e.Leave? && e.c == c {
      NoticesUnacked(e.order, s.tables, s.conns[c].id);
    }
  }

  lemma StepKeepsAcksPaired(s: State, e: Event)
    requires ConnsOk(s) && AllAcksPaired(s) && Enabled(s, e)
    ensures AllAcksPaired(Step(s, e))
  {
    SizesTogether(s, e);
    forall c | 0 <= c < |Step(s, e).conns|
      ensures AcksPaired(Plan(Step(s, e).conns[c]), c)
    {
      if c < |s.conns| {
        assert ConnOk(s, c) && AcksPaired(Plan(s.conns[c]), c);
        PlanStep(s, e, c);
        NewSendsPaired(s, e, c);
        PairedConcat(Plan(s.conns[c]), NewSends(s, e, c), c);
      }
    }
  }

  /** Once the target has been handed its acknowledgement, so has the initiator. */
  lemma AckedTogether(s: State, sid: SessionId)
    requires Inv(s) && AllAcksPaired(s) && sid in s.records
    requires s.records[sid].initiator != s.records[sid].target
    requires s.records[sid].target < |s.boxes| && AckHanded(s, s.records[sid].target, sid)
    ensures s.records[sid].initiator < |s.boxes| && AckHanded(s, s.records[sid].initiator, sid)
  {
    assert RecordOk(s, sid);
    var i, t := s.records[sid].initiator, s.records[sid].target;
    var l :| l in s.boxes[t].sent && IsAckOf(l.msg, sid);
    LetterInStory(s, t, l, sid);
    LetterHeard(s.boxes[t].sent, l);
    assert ChannelFifo(s, i, t) && ChannelFifo(s, i, i);
    ToMembers(s.conns[i].performed, t);
    AckInStory(s, sid, l.msg);
    var k :| 0 <= k < |s.conns[i].performed| && s.conns[i].performed[k] == Delivery(t, l.msg);
    assert AcksPaired(Plan(s.conns[i]), i) && AckPaired(Plan(s.conns[i]), i, k);
    var d := s.conns[i].performed[k - 1];
    assert d == Plan(s.conns[i])[k - 1] && d in s.conns[i].performed;
    ToMembers(s.conns[i].performed, i);
    var ack := HeardLetter(s.boxes[i].sent, i, d.msg);
    assert IsAckOf(ack.msg, sid);
  }

  lemma AckInStory(s: State, sid: SessionId, m: Msg)
    requires sid in s.records && s.records[sid].initiator < |s.conns|
    requires s.records[sid].initiator != s.records[sid].target && m.Ack?
    requires m in Story(s, sid, s.records[sid].initiator, s.records[sid].target)
    ensures !m.initiator
  {
    PairStory(s, sid, s.records[sid].initiator, s.records[sid].target);
  }

  // ----- the order kept by polite runs -----

  /** The target has acted on the session other than by disconnecting. */
  predicate TargetSpoke(s: State, sid: SessionId)
    requires sid in s.records && s.records[sid].target < |s.conns|
  {
    var t := s.records[sid].target;
    Relayed(s.conns[t].routed, sid) != []
    || (sid in s.removed && s.removed[sid].ByBye? && s.removed[sid].remover == t)
  }

  predicate TargetDisconnected(s: State, sid: SessionId) {
    sid in s.records && sid in s.removed && s.removed[sid] == ByDisconnect(s.records[sid].target)
  }

  /** The message at `k`, if it is traffic of `sid`, follows an acknowledgement or is excused. */
  ghost predicate AckedBefore(excused: bool, sid: SessionId, letters: seq<Letter>, k: int)
    requires 0 <= k < |letters|
  {
    TrafficOf(sid)(letters[k].msg) ==> AckBefore(letters, k, sid) || (letters[k].msg.PeerGone? && excused)
  }

  ghost predicate AckBefore(letters: seq<Letter>, k: nat, sid: SessionId)
    requires k <= |letters|
  {
    exists j :: 0 <= j < k && IsAckOf(letters[j].msg, sid)
  }

  ghost predicate LettersOrdered(excused: bool, sid: SessionId, letters: seq<Letter>) {
    forall k :: 0 <= k < |letters| ==> AckedBefore(excused, sid, letters, k)
  }

  lemma LettersGrow(excused: bool, sid: SessionId, letters: seq<Letter>, l: Letter)
    requires LettersOrdered(excused, sid, letters)
    requires TrafficOf(sid)(l.msg) ==> AckBefore(letters, |letters|, sid) || (l.msg.PeerGone? && excused)
    ensures LettersOrdered(excused, sid, letters + [l])
  {
    var after := letters + [l];
    forall k | 0 <= k < |after|
      ensures AckedBefore(excused, sid, after, k)
    {
      if k < |letters| {
        assert AckedBefore(excused, sid, letters, k);
        if AckBefore(letters, k, sid) {
          var j :| 0 <= j < k && IsAckOf(letters[j].msg, sid);
          assert after[j] == letters[j];
        }
      } else if AckBefore(letters, |letters|, sid) {
        var j :| 0 <= j < |letters| && IsAckOf(letters[j].msg, sid);
        assert after[j] == letters[j];
      }
    }
  }

  ghost predicate SessionOrdered(s: State, sid: SessionId)
    requires sid in s.records && |s.boxes| == |s.conns|
  {
    var i, t := s.records[sid].initiator, s.records[sid].target;
    i < |s.conns| && t < |s.conns| && i != t ==>
      && (TargetSpoke(s, sid) ==> AckHanded(s, i, sid))
      && LettersOrdered(TargetDisconnected(s, sid), sid, s.boxes[i].sent)
  }

  ghost predicate AllOrdered(s: State) {
    |s.boxes| == |s.conns| && forall sid :: sid in s.records ==> SessionOrdered(s, sid)
  }

  /** Nobody has been told anything about a session that does not exist yet. */
  lemma FreshUnheard(s: State, c: nat, newSid: SessionId)
    requires Inv(s) && c < |s.boxes| && newSid !in s.records
    ensures LettersOrdered(false, newSid, s.boxes[c].sent)
  {
    forall k | 0 <= k < |s.boxes[c].sent|
      ensures !Names(s.boxes[c].sent[k].msg, newSid)
    {
      if Names(s.boxes[c].sent[k].msg, newSid) {
        LetterInStory(s, c, s.boxes[c].sent[k], newSid);
      }
    }
  }

  lemma FreshUnspoken(s: State, t: nat, newSid: SessionId)
    requires ConnsOk(s) && t < |s.conns| && newSid !in s.records
    ensures Relayed(s.conns[t].routed, newSid) == []
  {
    assert ConnOk(s, t);
    RelayedUnknown(s.conns[t].routed, newSid);
  }

  lemma NewSessionOrdered(s: State, c: nat, req: Request, newSid: SessionId)
    requires Inv(s) && c < |s.conns| && newSid !in s.records && req.SessionReq? && req.peer in s.tables.peers
    ensures |ReadStep(s, c, req, newSid).boxes| == |ReadStep(s, c, req, newSid).conns|
    ensures SessionOrdered(ReadStep(s, c, req, newSid), newSid)
  {
    var s' := ReadStep(s, c, req, newSid);
    var t := s.tables.peers[req.peer];
    assert Owns(s, req.peer);
    FreshUnheard(s, c, newSid);
    FreshUnspoken(s, t, newSid);
    assert s'.records[newSid] == Record(c, t) && s'.conns[t].routed == s.conns[t].routed && newSid !in s'.removed;
  }

  /** What a dispatched frame changes of what the connection `t` has done about sessions. */
  lemma ReadFrame(s: State, c: nat, req: Request, newSid: SessionId, t: nat)
    requires c < |s.conns| && t < |s.conns|
    ensures var s' := ReadStep(s, c, req, newSid);
            && |s'.conns| == |s.conns|
            && (s'.conns[t].routed == s.conns[t].routed
                || (t == c && (req.Sdp? || req.Ice?) && s'.conns[t].routed == s.conns[t].routed + [req]))
            && (s'.removed == s.removed || (req.Bye? && s'.removed == s.removed[req.session := ByBye(c, req.reason)]))
            && (s'.records == s.records || s'.records == s.records[newSid := s'.records[newSid]])
  {
  }

  /** A frame by which the target first acts on the session names it, and is the target's. */
  lemma SpokeNames(s: State, s': State, c: nat, req: Request, sid: SessionId)
    requires sid in s.records && sid in s'.records && s'.records[sid] == s.records[sid]
    requires |s'.conns| == |s.conns| && s.records[sid].target < |s.conns|
    requires var t := s.records[sid].target;
             s'.conns[t].routed == s.conns[t].routed
             || (t == c && (req.Sdp? || req.Ice?) && s'.conns[t].routed == s.conns[t].routed + [req])
    requires s'.removed == s.removed || (req.Bye? && s'.removed == s.removed[req.session := ByBye(c, req.reason)])
    requires TargetSpoke(s', sid) && !TargetSpoke(s, sid)
    ensures c == s.records[sid].target && RequestNames(req, sid)
  {
    if req.Sdp? || req.Ice? {
      RelayedAppend(s.conns[s.records[sid].target].routed, req, sid);
    }
  }

  /** So it presupposes the target's acknowledgement, and with it the initiator's. */
  lemma SpokeAcked(s: State, c: nat, req: Request, newSid: SessionId, sid: SessionId)
    requires Inv(s) && AllAcksPaired(s) && c < |s.conns| && Polite(s, Read(c, req, newSid)) && newSid !in s.records
    requires sid in s.records && RecordOk(s, sid) && s.records[sid].initiator != s.records[sid].target
    ensures var s' := ReadStep(s, c, req, newSid);
            && sid in s'.records && s'.records[sid] == s.records[sid] && |s'.conns| == |s.conns|
            && (TargetSpoke(s', sid) ==> TargetSpoke(s, sid) || AckHanded(s, s.records[sid].initiator, sid))
  {
    var s' := ReadStep(s, c, req, newSid);
    ReadFrame(s, c, req, newSid, s.records[sid].target);
    if TargetSpoke(s', sid) && !TargetSpoke(s, sid) {
      SpokeNames(s, s', c, req, sid);
      AckedTogether(s, sid);
    }
  }

  lemma DisconnectStays(s: State, c: nat, req: Request, newSid: SessionId, sid: SessionId)
    requires RecordsOk(s) && c < |s.conns| && newSid !in s.records && TargetDisconnected(s, sid)
    ensures TargetDisconnected(ReadStep(s, c, req, newSid), sid)
  {
    ReadGrowsSessions(s, c, req, newSid);
  }

  /** A dispatched frame keeps the order of an existing session: it hands nothing over. */
  lemma ReadKeepsOrdered(s: State, c: nat, req: Request, newSid: SessionId, sid: SessionId)
    requires Inv(s) && AllAcksPaired(s) && AllOrdered(s) && c < |s.conns| && newSid !in s.records
    requires Polite(s, Read(c, req, newSid)) && sid in s.records
    ensures |ReadStep(s, c, req, newSid).boxes| == |ReadStep(s, c, req, newSid).conns|
    ensures sid in ReadStep(s, c, req, newSid).records && SessionOrdered(ReadStep(s, c, req, newSid), sid)
  {
    assert RecordOk(s, sid) && SessionOrdered(s, sid);
    if s.records[sid].initiator != s.records[sid].target {
      SpokeAcked(s, c, req, newSid, sid);
      if TargetDisconnected(s, sid) {
        DisconnectStays(s, c, req, newSid, sid);
      }
      OrderFrame(s, ReadStep(s, c, req, newSid), sid);
    } else {
      ReadGrowsSessions(s, c, req, newSid);
    }
  }

  lemma OrderFrame(s: State, s': State, sid: SessionId)
    requires |s.boxes| == |s.conns| && |s'.boxes| == |s'.conns|
    requires sid in s.records && sid in s'.records && s'.records[sid] == s.records[sid] && SessionOrdered(s, sid)
    requires s.records[sid].initiator < |s.conns| && s.records[sid].target < |s.conns| && |s.conns| <= |s'.conns|
    requires s.records[sid].initiator != s.records[sid].target
    requires s'.boxes[s.records[sid].initiator].sent == s.boxes[s.records[sid].initiator].sent
    requires TargetSpoke(s', sid) ==> TargetSpoke(s, sid) || AckHanded(s, s.records[sid].initiator, sid)
    requires TargetDisconnected(s, sid) ==> TargetDisconnected(s', sid)
    ensures SessionOrdered(s', sid)
  {
    var i := s.records[sid].initiator;
    assert AckHanded(s', i, sid) <==> AckHanded(s, i, sid);
    forall k | 0 <= k < |s'.boxes[i].sent|
      ensures AckedBefore(TargetDisconnected(s', sid), sid, s'.boxes[i].sent, k)
    {
      assert AckedBefore(TargetDisconnected(s, sid), sid, s.boxes[i].sent, k);
    }
  }

  /** Traffic that a thread still owes the initiator is covered by its acknowledgement. */
  lemma OwedTraffic(s: State, c: nat, sid: SessionId)
    requires Inv(s) && sid in s.records && c < |s.conns| && s.conns[c].outbox != []
    requires s.records[sid].initiator != s.records[sid].target
    requires s.conns[c].outbox[0].to == s.records[sid].initiator
    requires TrafficOf(sid)(s.conns[c].outbox[0].msg)
    ensures s.records[sid].target < |s.conns|
    ensures TargetSpoke(s, sid) || (s.conns[c].outbox[0].msg.PeerGone? && TargetDisconnected(s, sid))
  {
    assert RecordOk(s, sid);
    var i, t := s.records[sid].initiator, s.records[sid].target;
    var d := s.conns[c].outbox[0];
    assert d in Plan(s.conns[c]);
    PlannedInStory(s, c, i, d.msg, sid);
    if c == t {
      PairStory(s, sid, t, i);
      ClosingShape(s, sid, t, i);
    }
  }

  lemma HandedMeansBefore(s: State, i: nat, sid: SessionId)
    requires i < |s.boxes| && AckHanded(s, i, sid)
    ensures AckBefore(s.boxes[i].sent, |s.boxes[i].sent|, sid)
  {
    var l :| l in s.boxes[i].sent && IsAckOf(l.msg, sid);
    var j :| 0 <= j < |s.boxes[i].sent| && s.boxes[i].sent[j] == l;
    assert IsAckOf(s.boxes[i].sent[j].msg, sid);
  }

  /** The initiator itself is handed something. */
  lemma HandOverOrdered(s: State, c: nat, sid: SessionId)
    requires Inv(s) && c < |s.conns| && s.conns[c].outbox != [] && sid in s.records && RecordOk(s, sid)
    requires |s.boxes| == |s.conns| && SessionOrdered(s, sid)
    requires s.records[sid].initiator != s.records[sid].target && s.conns[c].outbox[0].to == s.records[sid].initiator
    ensures LettersOrdered(TargetDisconnected(s, sid), sid,
                           s.boxes[s.records[sid].initiator].sent
                           + [Stamp(s.boxes[s.records[sid].initiator], c, s.conns[c].outbox[0].msg)])
  {
    var i := s.records[sid].initiator;
    var l := Stamp(s.boxes[i], c, s.conns[c].outbox[0].msg);
    if TrafficOf(sid)(l.msg) {
      OwedTraffic(s, c, sid);
      if TargetSpoke(s, sid) {
        HandedMeansBefore(s, i, sid);
      }
    }
    LettersGrow(TargetDisconnected(s, sid), sid, s.boxes[i].sent, l);
  }

  /** What a hand-over leaves alone, and what it adds. */
  lemma PerformFrame(s: State, c: nat, sid: SessionId)
    requires c < |s.conns| && s.conns[c].outbox != [] && |s.boxes| == |s.conns| && sid in s.records
    requires s.records[sid].initiator < |s.conns| && s.records[sid].target < |s.conns|
    ensures var s' := PerformStep(s, c);
            var d := s.conns[c].outbox[0];
            var i := s.records[sid].initiator;
            && |s'.boxes| == |s'.conns| == |s.conns| && s'.records == s.records && s'.removed == s.removed
            && s'.conns[s.records[sid].target].routed == s.conns[s.records[sid].target].routed
            && s'.boxes[i].sent == if d.to == i then s.boxes[i].sent + [Stamp(s.boxes[i], c, d.msg)] else s.boxes[i].sent
  {
  }

  lemma PerformKeepsOrdered(s: State, c: nat, sid: SessionId)
    requires Inv(s) && AllOrdered(s) && c < |s.conns| && s.conns[c].outbox != [] && sid in s.records
    ensures |PerformStep(s, c).boxes| == |PerformStep(s, c).conns|
    ensures SessionOrdered(PerformStep(s, c), sid)
  {
    var s' := PerformStep(s, c);
    var i := s.records[sid].initiator;
    assert RecordOk(s, sid) && SessionOrdered(s, sid);
    PerformFrame(s, c, sid);
    if i != s.records[sid].target {
      assert TargetSpoke(s', sid) <==> TargetSpoke(s, sid);
      if s.conns[c].outbox[0].to == i {
        HandOverOrdered(s, c, sid);
        if AckHanded(s, i, sid) {
          var l :| l in s.boxes[i].sent && IsAckOf(l.msg, sid);
          assert l in s'.boxes[i].sent;
        }
      } else {
        OrderFrame(s, s', sid);
      }
    }
  }

  /** Steps that neither dispatch nor send leave sends and routed requests alone. */
  lemma OtherSteps(s: State, e: Event, x: nat)
    requires |s.boxes| == |s.conns| && Enabled(s, e) && !e.Read? && !e.Perform? && x < |s.conns|
    ensures var s' := Step(s, e);
            && |s'.boxes| == |s'.conns| && |s.conns| <= |s'.conns| && s'.records == s.records
            && s'.boxes[x].sent == s.boxes[x].sent && s'.conns[x].routed == s.conns[x].routed
  {
  }

  lemma OtherRemovals(s: State, e: Event, sid: SessionId)
    requires TablesOk(s) && Enabled(s, e) && !e.Read? && sid in s.records
    ensures sid in s.removed ==> sid in Step(s, e).removed && Step(s, e).removed[sid] == s.removed[sid]
    ensures sid in Step(s, e).removed && sid !in s.removed ==> Step(s, e).removed[sid].ByDisconnect?
  {
    assert RecordOk(s, sid);
  }

  lemma OtherStepsKeepOrdered(s: State, e: Event, sid: SessionId)
    requires Inv(s) && AllOrdered(s) && Enabled(s, e) && !e.Read? && !e.Perform? && sid in s.records
    ensures |Step(s, e).boxes| == |Step(s, e).conns|
    ensures sid in Step(s, e).records && SessionOrdered(Step(s, e), sid)
  {
    assert RecordOk(s, sid) && SessionOrdered(s, sid);
    OtherSteps(s, e, s.records[sid].initiator);
    OtherSteps(s, e, s.records[sid].target);
    OtherRemovals(s, e, sid);
    if s.records[sid].initiator != s.records[sid].target {
      OrderFrame(s, Step(s, e), sid);
    }
  }

  lemma StepKeepsOrdered(s: State, e: Event)
    requires Inv(s) && AllAcksPaired(s) && AllOrdered(s) && Enabled(s, e) && Polite(s, e)
    ensures AllOrdered(Step(s, e))
  {
    var s' := Step(s, e);
    StepKeepsConns(s, e);
    forall sid | sid in s'.records
      ensures SessionOrdered(s', sid)
    {
      if sid !in s.records {
        NewSessionOrdered(s, e.c, e.req, e.newSid);
      } else if e.Read? {
        ReadKeepsOrdered(s, e.c, e.req, e.newSid, sid);
      } else if e.Perform? {
        PerformKeepsOrdered(s, e.c, sid);
      } else {
        OtherStepsKeepOrdered(s, e, sid);
      }
    }
  }

  lemma {:induction false} PoliteReachable(ss: seq<State>, es: seq<Event>, n: nat)
    requires IsPoliteRun(ss, es) && n < |ss|
    ensures Inv(ss[n]) && AllAcksPaired(ss[n]) && AllOrdered(ss[n])
  {
    ReachableInv(ss, es, n);
    if n > 0 {
      PoliteReachable(ss, es, n - 1);
      assert Enabled(ss[n - 1], es[n - 1]) && Polite(ss[n - 1], es[n - 1]);
      StepKeepsAcksPaired(ss[n - 1], es[n - 1]);
      StepKeepsOrdered(ss[n - 1], es[n - 1]);
    }
  }

  // ----- the gap between the opening of a session and its acknowledgement -----

  /** The thread of `c` has still to hand `c` the acknowledgement of `sid`. */
  ghost predicate OwesAck(s: State, c: nat, sid: SessionId)
    requires c < |s.conns|
  {
    exists d :: d in s.conns[c].outbox && d.to == c && IsAckOf(d.msg, sid)
  }

  lemma SelfLane(s: State, sid: SessionId)
    requires Inv(s) && sid in s.records && s.records[sid].initiator != s.records[sid].target
    ensures var i := s.records[sid].initiator;
            && i < |s.conns| && i < |s.boxes|
            && About(s.conns[i].performed, i, sid) + About(s.conns[i].outbox, i, sid)
               == [Ack(sid, IdOf(s, s.records[sid].target), s.ice, true)]
            && About(s.conns[i].performed, i, sid) == Keep(Naming(sid), From(s.boxes[i].sent, i))
  {
    assert RecordOk(s, sid);
    var i := s.records[sid].initiator;
    KeepToConcat(Naming(sid), s.conns[i].performed, s.conns[i].outbox, i);
    assert Lane(s, sid, i, i) == Story(s, sid, i, i);
    assert ChannelFifo(s, i, i);
  }

  lemma OwedIsAck(s: State, c: nat, sid: SessionId, m: Msg)
    requires c < |s.conns| && About(s.conns[c].outbox, c, sid) <= [m] && IsAckOf(m, sid)
    ensures OwesAck(s, c, sid) <==> About(s.conns[c].outbox, c, sid) != []
  {
    var outbox := s.conns[c].outbox;
    ToMembers(outbox, c);
    KeepMembers(Naming(sid), To(outbox, c));
    if OwesAck(s, c, sid) {
      var d :| d in outbox && d.to == c && IsAckOf(d.msg, sid);
      assert Delivery(c, d.msg) == d;
      assert d.msg in About(outbox, c, sid);
    }
    if About(outbox, c, sid) != [] {
      assert About(outbox, c, sid)[0] == m;
      assert Delivery(c, m) in outbox;
    }
  }

  /** An acknowledgement that the initiator has been handed came from its own thread. */
  lemma HandedIsAck(s: State, sid: SessionId)
    requires Inv(s) && sid in s.records && s.records[sid].initiator != s.records[sid].target
    requires s.records[sid].initiator < |s.boxes|
    ensures AckHanded(s, s.records[sid].initiator, sid) <==>
              Keep(Naming(sid), From(s.boxes[s.records[sid].initiator].sent, s.records[sid].initiator)) != []
  {
    var i := s.records[sid].initiator;
    var sent := s.boxes[i].sent;
    var own := Keep(Naming(sid), From(sent, i));
    KeepMembers(Naming(sid), From(sent, i));
    if AckHanded(s, i, sid) {
      var l :| l in sent && IsAckOf(l.msg, sid);
      AckIsOwn(s, sid, l);
      LetterHeard(sent, l);
      assert l.msg in own;
    }
    if own != [] {
      var l := HeardLetter(sent, i, own[0]);
      SelfLane(s, sid);
      assert own[0] == (own + About(s.conns[i].outbox, i, sid))[0];
      assert IsAckOf(l.msg, sid);
    }
  }

  lemma AckIsOwn(s: State, sid: SessionId, l: Letter)
    requires Inv(s) && sid in s.records && s.records[sid].initiator != s.records[sid].target
    requires s.records[sid].initiator < |s.boxes| && l in s.boxes[s.records[sid].initiator].sent && IsAckOf(l.msg, sid)
    ensures l.from == s.records[sid].initiator
  {
    LetterInStory(s, s.records[sid].initiator, l, sid);
    if l.from == s.records[sid].target {
      TargetStory(s, sid);
    }
  }

  /** From the opening on, the initiator's acknowledgement is owed until it is handed over. */
  lemma OwedUntilHanded(s: State, sid: SessionId)
    requires Inv(s) && sid in s.records && s.records[sid].initiator != s.records[sid].target
    ensures s.records[sid].initiator < |s.conns| && s.records[sid].initiator < |s.boxes|
    ensures OwesAck(s, s.records[sid].initiator, sid) <==> !AckHanded(s, s.records[sid].initiator, sid)
  {
    SelfLane(s, sid);
    HandedIsAck(s, sid);
    OwedIsAck(s, s.records[sid].initiator, sid, Ack(sid, IdOf(s, s.records[sid].target), s.ice, true));
  }

  /**
   * Exactly when the initiator's acknowledgement comes first, whatever clients do: a message about
   * the session that the initiator is handed is preceded by the acknowledgement if and only if the
   * initiator's thread no longer owed it at the step, here `m`, that handed the message over.
   */
  lemma AckFirstExact(ss: seq<State>, es: seq<Event>, n: nat, sid: SessionId, k: nat) returns (m: nat)
    requires IsRun(ss, es) && n < |ss| && sid in ss[n].records
    requires ss[n].records[sid].initiator != ss[n].records[sid].target
    requires ss[n].records[sid].initiator < |ss[n].boxes|
    requires k < |ss[n].boxes[ss[n].records[sid].initiator].sent|
    requires Names(ss[n].boxes[ss[n].records[sid].initiator].sent[k].msg, sid)
    ensures var i := ss[n].records[sid].initiator;
            && m < n && HandsOver(ss[m], es[m], i, k) && i < |ss[m].conns|
            && sid in ss[m].records && ss[m].records[sid] == ss[n].records[sid]
            && NextLetter(ss[m], es[m]) == ss[n].boxes[i].sent[k]
            && (AckBefore(ss[n].boxes[i].sent, k, sid) <==> !OwesAck(ss[m], i, sid))
  {
    var i := ss[n].records[sid].initiator;
    var letters := ss[n].boxes[i].sent;
    m := HandedAt(ss, es, n, i, k);
    ReachableInv(ss, es, m);
    HandedIsRecorded(ss[m], es[m], i, k, sid);
    RunGrows(ss, es, m, n);
    OwedUntilHanded(ss[m], sid);
    BeforeMeansHanded(ss[m], i, letters, k, sid);
  }

  lemma BeforeMeansHanded(s: State, i: nat, letters: seq<Letter>, k: nat, sid: SessionId)
    requires i < |s.boxes| && k <= |letters| && s.boxes[i].sent == letters[..k]
    ensures AckBefore(letters, k, sid) <==> AckHanded(s, i, sid)
  {
    if AckHanded(s, i, sid) {
      var l :| l in s.boxes[i].sent && IsAckOf(l.msg, sid);
      var j :| 0 <= j < k && letters[..k][j] == l;
      assert IsAckOf(letters[j].msg, sid);
    }
  }

  /** `e` unregisters the target of the live session `sid` while the initiator's ack is still owed. */
  ghost predicate LeavesInGap(s: State, e: Event, sid: SessionId) {
    && e.Leave? && Enabled(s, e) && sid in s.tables.sessions && sid in s.records
    && e.c == s.records[sid].target
    && s.records[sid].initiator < |s.conns| && OwesAck(s, s.records[sid].initiator, sid)
  }

  lemma OwedEarlier(ss: seq<State>, es: seq<Event>, q: nat, m: nat, sid: SessionId)
    requires IsRun(ss, es) && q <= m < |ss| && sid in ss[q].records
    requires ss[q].records[sid].initiator != ss[q].records[sid].target
    requires ss[q].records[sid].initiator < |ss[m].conns| && OwesAck(ss[m], ss[q].records[sid].initiator, sid)
    ensures ss[q].records[sid].initiator < |ss[q].conns| && OwesAck(ss[q], ss[q].records[sid].initiator, sid)
  {
    ReachableInv(ss, es, q);
    ReachableInv(ss, es, m);
    RunGrows(ss, es, q, m);
    OwedUntilHanded(ss[q], sid);
    OwedUntilHanded(ss[m], sid);
  }

  /** The step that removed a session whose target has disconnected while the ack was owed. */
  lemma LeftInGap(ss: seq<State>, es: seq<Event>, m: nat, sid: SessionId) returns (q: nat)
    requires IsRun(ss, es) && m < |ss| && TargetDisconnected(ss[m], sid)
    requires ss[m].records[sid].initiator != ss[m].records[sid].target
    requires ss[m].records[sid].initiator < |ss[m].conns| && OwesAck(ss[m], ss[m].records[sid].initiator, sid)
    ensures q < m && LeavesInGap(ss[q], es[q], sid)
  {
    q := RemovedAt(ss, es, m, sid);
    ReachableInv(ss, es, q);
    RunGrows(ss, es, q, m);
    assert sid in ss[q].records;
    OwedEarlier(ss, es, q, m, sid);
  }

  /**
   * In a polite run, exactly when the acknowledgement comes first: SDP, ICE or a notice that the
   * initiator is handed, by the step `m`, is preceded by the acknowledgement unless the initiator
   * still owed it at that step; and then it is the notice of a target that unregistered between
   * the locked step that opened the session and the hand-over of the acknowledgement.
   */
  lemma AckPrecedesTraffic(ss: seq<State>, es: seq<Event>, n: nat, sid: SessionId, k: nat) returns (m: nat)
    requires IsPoliteRun(ss, es) && n < |ss| && sid in ss[n].records
    requires ss[n].records[sid].initiator != ss[n].records[sid].target
    requires ss[n].records[sid].initiator < |ss[n].boxes|
    requires k < |ss[n].boxes[ss[n].records[sid].initiator].sent|
    requires TrafficOf(sid)(ss[n].boxes[ss[n].records[sid].initiator].sent[k].msg)
    ensures var i := ss[n].records[sid].initiator;
            var letters := ss[n].boxes[i].sent;
            && m < n && HandsOver(ss[m], es[m], i, k) && i < |ss[m].conns|
            && (AckBefore(letters, k, sid) <==> !OwesAck(ss[m], i, sid))
            && (OwesAck(ss[m], i, sid) ==>
                  letters[k].msg.PeerGone? && exists q :: 0 <= q < m && LeavesInGap(ss[q], es[q], sid))
  {
    m := AckFirstExact(ss, es, n, sid, k);
    var i := ss[n].records[sid].initiator;
    if OwesAck(ss[m], i, sid) {
      OwedTrafficIsNotice(ss, es, m, sid);
      var q := LeftInGap(ss, es, m, sid);
      assert LeavesInGap(ss[q], es[q], sid);
    }
  }

  /** Traffic handed over while the acknowledgement is owed is a disconnected target's notice. */
  lemma OwedTrafficIsNotice(ss: seq<State>, es: seq<Event>, m: nat, sid: SessionId)
    requires IsPoliteRun(ss, es) && m < |es| && sid in ss[m].records
    requires ss[m].records[sid].initiator != ss[m].records[sid].target
    requires ss[m].records[sid].initiator < |ss[m].conns| && OwesAck(ss[m], ss[m].records[sid].initiator, sid)
    requires ss[m].records[sid].initiator < |ss[m].boxes|
    requires HandsOver(ss[m], es[m], ss[m].records[sid].initiator, |ss[m].boxes[ss[m].records[sid].initiator].sent|)
    requires TrafficOf(sid)(NextLetter(ss[m], es[m]).msg)
    ensures NextLetter(ss[m], es[m]).msg.PeerGone? && TargetDisconnected(ss[m], sid)
  {
    PoliteReachable(ss, es, m);
    OwedUntilHanded(ss[m], sid);
    OwedTraffic(ss[m], es[m].c, sid);
    assert RecordOk(ss[m], sid) && SessionOrdered(ss[m], sid);
  }
}
