/**
 * What whole runs of the server keep: the binding of sessions to connection objects, the
 * accounting of sessions, the lifecycle of connections and the backlog of each peer.
 */
module RunTheorems {
  import opened Sequences
  import opened Messages
  import opened HubTables
  import opened Mailbox
  import opened Network
  import opened NetworkInvariant
  import opened RunHistory
  import opened SessionTheorems

  // ----- binding -----

  /**
   * As long as a session lives, both its ids are registered and map to the very connection
   * objects it was opened between: a later connection with the same id never inherits it.
   */
  lemma SessionBinding(ss: seq<State>, es: seq<Event>, m: nat, n: nat, c: nat, peer: PeerId, sid: SessionId)
    requires IsRun(ss, es) && m < |es| && m < n < |ss|
    requires es[m] == Read(c, SessionReq(peer), sid) && c < |ss[m].conns| && peer in ss[m].tables.peers
    requires sid in ss[n].tables.sessions
    ensures ss[n].tables.sessions[sid] == Session(ss[m].conns[c].id, peer)
    ensures peer in ss[n].tables.peers && ss[n].tables.peers[peer] == ss[m].tables.peers[peer]
    ensures ss[m].conns[c].id in ss[n].tables.peers && ss[n].tables.peers[ss[m].conns[c].id] == c
  {
    RunStep(ss, es, m);
    assert ss[m + 1].records[sid] == OpenedRecord(ss[m], es[m]);
    RunGrows(ss, es, m + 1, n);
    RunGrows(ss, es, m, n);
    assert ConnGrows(ss[m].conns[c], ss[n].conns[c]);
    ReachableInv(ss, es, n);
    BoundIds(ss[m], ss[n], c, peer, sid);
  }

  /** A live session's ids, read off the connections of its record. */
  lemma BoundIds(s: State, s': State, c: nat, peer: PeerId, sid: SessionId)
    requires PeersOk(s) && TablesOk(s') && ConnsGrow(s, s')
    requires c < |s.conns| && peer in s.tables.peers && sid in s'.tables.sessions
    requires sid in s'.records && s'.records[sid] == Record(c, s.tables.peers[peer])
    ensures s'.tables.sessions[sid] == Session(s.conns[c].id, peer)
    ensures peer in s'.tables.peers && s'.tables.peers[peer] == s.tables.peers[peer]
    ensures s.conns[c].id in s'.tables.peers && s'.tables.peers[s.conns[c].id] == c
  {
    var x := s'.tables.sessions[sid];
    assert RecordOk(s', sid) && Bound(s', sid);
    assert Owns(s, peer) && Owns(s', x.initiator) && Owns(s', x.target);
    assert ConnGrows(s.conns[c], s'.conns[c]);
    assert ConnGrows(s.conns[s.tables.peers[peer]], s'.conns[s.tables.peers[peer]]);
  }

  /** Both members of every live session are registered, and are the recorded connections. */
  lemma MembersRegistered(ss: seq<State>, es: seq<Event>, n: nat, sid: SessionId)
    requires IsRun(ss, es) && n < |ss| && sid in ss[n].tables.sessions
    ensures ss[n].tables.sessions[sid].initiator in ss[n].tables.peers
    ensures ss[n].tables.sessions[sid].target in ss[n].tables.peers
    ensures sid in ss[n].records && Bound(ss[n], sid)
  {
    ReachableInv(ss, es, n);
    assert sid in ss[n].records && RecordOk(ss[n], sid);
  }

  /** `OtherPeer` never answers a connection that can dispatch with "target not connected". */
  lemma DispatchNeverMissesPeer(ss: seq<State>, es: seq<Event>, n: nat, c: nat, sid: SessionId)
    requires IsRun(ss, es) && n < |ss| && c < |ss[n].conns| && ss[n].conns[c].phase == Serving
    ensures OtherPeer(ss[n].tables, sid, ss[n].conns[c].id) != Fail(TargetUnknown)
  {
    ReachableInv(ss, es, n);
    if sid in ss[n].tables.sessions {
      OtherEnd(ss[n], c, sid);
    }
  }

  // ----- what each frame is answered with -----

  /**
   * An `sdp` or `ice` frame is routed if and only if its session is live and its sender a member:
   * then the other end, and it alone, is owed the message field for field; otherwise the sender
   * is owed one error that says which of the two failed, and nothing is routed.
   */
  lemma RoutedIffMember(ss: seq<State>, es: seq<Event>, n: nat, c: nat, req: Request)
    requires IsRun(ss, es) && n < |es| && es[n].Read? && es[n].c == c && es[n].req == req && (req.Sdp? || req.Ice?)
    ensures c < |ss[n].conns| && c < |ss[n + 1].conns| && ss[n + 1].tables == ss[n].tables
    ensures var known := req.session in ss[n].tables.sessions && req.session in ss[n].records;
            var live := known && Member(ss[n].records[req.session], c);
            && ss[n + 1].conns[c].routed == ss[n].conns[c].routed + (if live then [req] else [])
            && |ss[n + 1].conns[c].outbox| == 1
            && var d := ss[n + 1].conns[c].outbox[0];
               && (live ==> Counterparts(ss[n].records[req.session], c, d.to))
               && (live && req.Sdp? ==> d.msg == PeerSdp(req.session, req.role, req.sdp))
               && (live && req.Ice? ==> d.msg == PeerIce(req.session, req.cand))
               && (!live ==> d == Delivery(c, Err(DispatchCode, HubSays(if known then NotMember else SessionUnknown))))
  {
    RunStep(ss, es, n);
    RouteOutcome(ss[n], c, req, es[n].newSid);
  }

  lemma RouteOutcome(s: State, c: nat, req: Request, newSid: SessionId)
    requires TablesOk(s) && c < |s.conns| && Enrolled(s.conns[c].phase) && (req.Sdp? || req.Ice?)
    ensures ReadStep(s, c, req, newSid).tables == s.tables
    ensures var known := req.session in s.tables.sessions && req.session in s.records;
            var live := known && Member(s.records[req.session], c);
            var k := ReadStep(s, c, req, newSid).conns[c];
            && k.routed == s.conns[c].routed + (if live then [req] else [])
            && (live ==> k.outbox == [Delivery(OtherEndOf(s.records[req.session], c), Relay(req))])
            && (live ==> Counterparts(s.records[req.session], c, OtherEndOf(s.records[req.session], c)))
            && (!live ==> k.outbox == [Delivery(c, Err(DispatchCode, HubSays(if known then NotMember else SessionUnknown)))])
  {
    if req.session in s.tables.sessions {
      OtherEnd(s, c, req.session);
    } else {
      assert OtherPeer(s.tables, req.session, s.conns[c].id) == Fail(SessionUnknown);
    }
  }

  /**
   * A `session.req` for a listed peer opens the session and owes the two acknowledgements, the
   * initiator's first; for a peer that is not listed it changes nothing and owes one error.
   */
  lemma RequestAnswered(ss: seq<State>, es: seq<Event>, n: nat, c: nat, peer: PeerId, sid: SessionId)
    requires IsRun(ss, es) && n < |es| && es[n] == Read(c, SessionReq(peer), sid)
    ensures c < |ss[n].conns| && c < |ss[n + 1].conns| && ss[n + 1].tables.peers == ss[n].tables.peers
    ensures peer in ss[n].tables.peers ==>
              && ss[n + 1].tables.sessions == ss[n].tables.sessions[sid := Session(ss[n].conns[c].id, peer)]
              && ss[n + 1].conns[c].outbox
                 == [Delivery(c, Ack(sid, peer, ss[n].ice, true)),
                     Delivery(ss[n].tables.peers[peer], Ack(sid, ss[n].conns[c].id, ss[n].ice, false))]
    ensures peer !in ss[n].tables.peers ==>
              && ss[n + 1].tables.sessions == ss[n].tables.sessions
              && ss[n + 1].conns[c].outbox == [Delivery(c, Err(DispatchCode, HubSays(TargetUnknown)))]
  {
    RunStep(ss, es, n);
  }

  /**
   * A frame that is about no session, or a bye for one that is not live, changes no table. Each of
   * the former is answered to its sender alone, with exactly the reply its kind calls for; the
   * latter is not answered at all.
   */
  lemma PlainFrameAnswered(ss: seq<State>, es: seq<Event>, n: nat, c: nat, req: Request)
    requires IsRun(ss, es) && n < |es| && es[n].Read? && es[n].c == c && es[n].req == req
    requires !req.Sdp? && !req.Ice? && !req.SessionReq?
    requires req.Bye? ==> req.session !in ss[n].tables.sessions
    ensures c < |ss[n + 1].conns| && ss[n + 1].tables == ss[n].tables
    ensures var outbox := ss[n + 1].conns[c].outbox;
            && (req.Ping? ==> outbox == [Delivery(c, Pong)])
            && (req.Hello? ==> outbox == [Delivery(c, Err(DispatchCode, HelloAgain))])
            && (req.Unknown? ==> outbox == [Delivery(c, Err(DispatchCode, KindUnknown(req.kind)))])
            && (req.Malformed? ==> outbox == [Delivery(c, Err(DispatchCode, DecoderSays(req.text)))])
            && (req.BadJson? ==> outbox == [Delivery(c, Err(BadJsonCode, DecoderSays(req.text)))])
            && (req.Bye? ==> outbox == [])
  {
    RunStep(ss, es, n);
    if req.Bye? {
      assert ss[n].tables.sessions - {req.session} == ss[n].tables.sessions;
    }
  }

  // ----- removal of sessions -----

  /**
   * A `bye` by any connection removes the session it names, but the counterparty is told if and
   * only if the sender is a member; otherwise the session disappears without a notice.
   */
  lemma ByeNotifiesIffMember(
      ss: seq<State>, es: seq<Event>, n: nat, c: nat, sid: SessionId, reason: string)
    requires IsRun(ss, es) && n < |es|
    requires es[n].Read? && es[n].c == c && es[n].req == Bye(sid, reason) && sid in ss[n].tables.sessions
    ensures sid in ss[n].records && c < |ss[n].conns| && c < |ss[n + 1].conns|
    ensures ss[n + 1].tables.sessions == ss[n].tables.sessions - {sid} && ss[n + 1].tables.peers == ss[n].tables.peers
    ensures ss[n + 1].conns[c].outbox != [] <==> Member(ss[n].records[sid], c)
    ensures forall other: nat :: Counterparts(ss[n].records[sid], c, other) ==>
              ss[n + 1].conns[c].outbox == [Delivery(other, PeerGone(sid, reason))]
  {
    assert Enabled(ss[n], es[n]);
    ReachableInv(ss, es, n);
    OtherEnd(ss[n], c, sid);
  }

  /**
   * `Unregister` removes exactly the leaving peer and exactly the sessions its connection is a
   * member of, whatever order it visits them in; each session joining it to another connection
   * yields one notice, to that connection, and nothing else is said about any session.
   */
  lemma UnregisterExact(ss: seq<State>, es: seq<Event>, n: nat, c: nat, order: seq<SessionId>)
    requires IsRun(ss, es) && n < |es| && es[n] == Leave(c, order)
    ensures c < |ss[n].conns| && c < |ss[n + 1].conns| && ss[n].conns[c].id in ss[n].tables.peers
    ensures ss[n].tables.peers[ss[n].conns[c].id] == c
    ensures ss[n + 1].tables.peers == ss[n].tables.peers - {ss[n].conns[c].id}
    ensures forall sid :: sid in ss[n].tables.sessions ==> sid in ss[n].records
    ensures forall sid :: sid in ss[n + 1].tables.sessions <==>
              sid in ss[n].tables.sessions && !Member(ss[n].records[sid], c)
    ensures forall sid :: sid in ss[n + 1].tables.sessions ==>
              ss[n + 1].tables.sessions[sid] == ss[n].tables.sessions[sid]
    ensures forall sid, to: nat ::
              About(ss[n + 1].conns[c].outbox, to, sid)
              == if sid in ss[n].tables.sessions && Counterparts(ss[n].records[sid], c, to) && to != c
                 then [PeerGone(sid, "peer_disconnected")] else []
  {
    assert Enabled(ss[n], es[n]);
    ReachableInv(ss, es, n);
    LeaveExact(ss[n], c, order);
  }

  lemma LeaveExact(s: State, c: nat, order: seq<SessionId>)
    requires TablesOk(s) && c < |s.conns| && Enrolled(s.conns[c].phase)
    requires Enumerates(order, s.tables.sessions.Keys)
    ensures s.conns[c].id in s.tables.peers && s.tables.peers[s.conns[c].id] == c
    ensures var s' := LeaveStep(s, c, order);
            && s'.tables.peers == s.tables.peers - {s.conns[c].id}
            && (forall sid :: sid in s.tables.sessions ==> sid in s.records)
            && (forall sid :: sid in s'.tables.sessions <==>
                  sid in s.tables.sessions && !Member(s.records[sid], c))
            && (forall sid :: sid in s'.tables.sessions ==> s'.tables.sessions[sid] == s.tables.sessions[sid])
    ensures forall sid, to: nat ::
              About(Notices(order, s.tables, s.conns[c].id), to, sid)
              == if sid in s.tables.sessions && Counterparts(s.records[sid], c, to) && to != c
                 then [PeerGone(sid, DISCONNECTED)] else []
  {
    assert Listed(s, c);
    forall sid | sid in s.tables.sessions
      ensures sid in s.records && (Involves(s.tables.sessions[sid], s.conns[c].id) <==> Member(s.records[sid], c))
    {
      OtherEnd(s, c, sid);
    }
    forall sid, to: nat
      ensures About(Notices(order, s.tables, s.conns[c].id), to, sid)
           == if sid in s.tables.sessions && Counterparts(s.records[sid], c, to) && to != c
              then [PeerGone(sid, DISCONNECTED)] else []
    {
      LeaveSays(s, c, order, to, sid);
    }
  }

  lemma LeaveSays(s: State, c: nat, order: seq<SessionId>, to: nat, sid: SessionId)
    requires TablesOk(s) && c < |s.conns| && Enrolled(s.conns[c].phase)
    requires Enumerates(order, s.tables.sessions.Keys)
    ensures About(Notices(order, s.tables, s.conns[c].id), to, sid)
         == if sid in s.tables.sessions && sid in s.records && Counterparts(s.records[sid], c, to) && to != c
            then [PeerGone(sid, DISCONNECTED)] else []
  {
    LeaveAbout(s, c, order, to, sid);
    if sid in s.tables.sessions {
      OtherEnd(s, c, sid);
      OtherEndIsCounterpart(s.records[sid], c, to);
      if Member(s.records[sid], c) {
        LeaveRecords(s, c, order, sid);
        DisconnectClosing(LeaveStep(s, c, order), c, sid, to);
      }
    }
  }

  function ByeRemovals(s: State): set<SessionId> {
    set sid | sid in s.removed && s.removed[sid].ByBye?
  }

  function DisconnectRemovals(s: State): set<SessionId> {
    set sid | sid in s.removed && s.removed[sid].ByDisconnect?
  }

  /** Sessions opened = live + removed by a bye + removed by a disconnect. */
  lemma SessionConservation(ss: seq<State>, es: seq<Event>, n: nat)
    requires IsRun(ss, es) && n < |ss|
    ensures |ss[n].records| == |ss[n].tables.sessions| + |ByeRemovals(ss[n])| + |DisconnectRemovals(ss[n])|
  {
    ReachableInv(ss, es, n);
    var s := ss[n];
    var live := s.tables.sessions.Keys;
    forall sid
      ensures sid in s.records.Keys <==> sid in live + ByeRemovals(s) + DisconnectRemovals(s)
      ensures !(sid in live && sid in s.removed)
    {
      assert sid in s.records ==> RecordOk(s, sid);
    }
    assert s.records.Keys == live + ByeRemovals(s) + DisconnectRemovals(s);
    assert live !! ByeRemovals(s) && (live + ByeRemovals(s)) !! DisconnectRemovals(s);
    assert |live + ByeRemovals(s)| == |live| + |ByeRemovals(s)|;
  }

  /** A session is removed once: the step that did it is never revised and the id never lives again. */
  lemma RemovedForGood(ss: seq<State>, es: seq<Event>, m: nat, n: nat, sid: SessionId)
    requires IsRun(ss, es) && m <= n < |ss| && sid in ss[m].removed
    ensures sid in ss[n].removed && ss[n].removed[sid] == ss[m].removed[sid]
    ensures sid !in ss[n].tables.sessions
  {
    RunGrows(ss, es, m, n);
    ReachableInv(ss, es, n);
    assert sid in ss[n].records && RecordOk(ss[n], sid);
  }

  // ----- lifecycle -----

  /** The phases a connection can be in after `p`. */
  predicate Leads(p: Phase, q: Phase) {
    p == q || p == Arriving
    || (p == Greeting && (q == Serving || q == Drained || q == Left))
    || (p == Serving && (q == Drained || q == Left))
    || (p == Drained && q == Left)
  }

  lemma StepLeads(s: State, e: Event, c: nat)
    requires Enabled(s, e) && c < |s.conns|
    ensures c < |Step(s, e).conns| && Leads(s.conns[c].phase, Step(s, e).conns[c].phase)
  {
  }

  lemma {:induction false} PhasesLead(ss: seq<State>, es: seq<Event>, m: nat, n: nat, c: nat)
    requires IsRun(ss, es) && m <= n < |ss| && c < |ss[m].conns|
    ensures c < |ss[n].conns| && Leads(ss[m].conns[c].phase, ss[n].conns[c].phase)
    decreases n - m
  {
    if m < n {
      PhasesLead(ss, es, m, n - 1, c);
      assert Enabled(ss[n - 1], es[n - 1]);
      StepLeads(ss[n - 1], es[n - 1], c);
    }
  }

  /** `e` is a hub operation or a dispatched frame of the connection object `c`. */
  predicate ActsFor(e: Event, c: nat) {
    (e.Register? || e.Read? || e.Leave?) && e.c == c
  }

  /**
   * A connection object unregisters only after a successful `Register` of its own, and after that
   * it never registers, dispatches or unregisters again.
   */
  lemma UnregisterOnceAndLast(ss: seq<State>, es: seq<Event>, m: nat, n: nat, c: nat, order: seq<SessionId>)
    requires IsRun(ss, es) && m < n < |es| && es[m] == Leave(c, order)
    ensures !ActsFor(es[n], c)
    ensures c < |ss[m].conns| && ss[m].conns[c].id in ss[m].tables.peers && ss[m].tables.peers[ss[m].conns[c].id] == c
  {
    assert Enabled(ss[m], es[m]) && Enabled(ss[n], es[n]);
    assert ss[m + 1].conns[c].phase == Left;
    PhasesLead(ss, es, m + 1, n, c);
    UnregisterExact(ss, es, m, c, order);
  }

  /** A duplicate never runs: it takes no further step in the hub and displaces nobody. */
  lemma RejectedNeverActs(ss: seq<State>, es: seq<Event>, m: nat, n: nat, c: nat)
    requires IsRun(ss, es) && m < n < |es| && es[m] == Register(c)
    requires c < |ss[m].conns| && ss[m].conns[c].id in ss[m].tables.peers
    ensures ss[m + 1].tables == ss[m].tables
    ensures !ActsFor(es[n], c)
  {
    assert Enabled(ss[m], es[m]) && Enabled(ss[n], es[n]);
    assert ss[m + 1].conns[c].phase == Rejected;
    PhasesLead(ss, es, m + 1, n, c);
  }

  /** The first message that a connection's own thread hands to it is its hello.ok. */
  lemma HelloBeforeReplies(ss: seq<State>, es: seq<Event>, n: nat, c: nat)
    requires IsRun(ss, es) && n < |ss| && c < |ss[n].conns|
    ensures c < |ss[n].boxes|
    ensures From(ss[n].boxes[c].sent, c) != [] ==> From(ss[n].boxes[c].sent, c)[0] == HelloOk(ss[n].conns[c].id)
  {
    ReachableInv(ss, es, n);
    var s := ss[n];
    var plan := Plan(s.conns[c]);
    assert ConnOk(s, c);
    HeardPrefix(s, c, c);
    if plan != [] {
      ToFirst(plan, c);
    }
  }

  // ----- backlog -----

  /**
   * In every interleaving, an open peer has lost, reordered or duplicated nothing and is at most
   * 33 messages behind.
   */
  lemma OpenPeerBacklog(ss: seq<State>, es: seq<Event>, n: nat, c: nat)
    requires IsRun(ss, es) && n < |ss| && c < |ss[n].boxes| && !ss[n].boxes[c].closed
    ensures var b := ss[n].boxes[c];
            && b.written + InFlight(b.writer) + b.queue == b.sent
            && |b.queue| <= 32
            && |b.sent| - |b.written| <= 33
  {
    ReachableInv(ss, es, n);
    NoSilentLoss(ss[n].boxes[c]);
  }

  /** Closed or not, the wire skips nothing handed over before the step that closed the peer. */
  lemma WireAfterClose(ss: seq<State>, es: seq<Event>, n: nat, c: nat)
    requires IsRun(ss, es) && n < |ss| && c < |ss[n].boxes|
    ensures var b := ss[n].boxes[c];
            Subsequence(b.written, b.sent) && AgreeUpTo(b.written, b.sent, if b.closed then b.mark else |b.sent|)
  {
    ReachableInv(ss, es, n);
    WireIsSubsequence(ss[n].boxes[c]);
  }

  /** Each hand-over is its own: no two letters to a peer are equal. */
  lemma LettersDiffer(ss: seq<State>, es: seq<Event>, n: nat, c: nat)
    requires IsRun(ss, es) && n < |ss| && c < |ss[n].boxes|
    ensures AllDifferent(ss[n].boxes[c].sent)
  {
    forall k | 0 <= k < |ss[n].boxes[c].sent|
      ensures ss[n].boxes[c].sent[k].nth == k
    {
      var m := HandedAt(ss, es, n, c, k);
    }
  }

  /**
   * In every interleaving, exactly when delivery is a prefix of what was handed over: as long as
   * the wire has not got past the place of the close. Past it, the message whose hand-over closed
   * the peer is missing and everything further on the wire was handed over later.
   */
  lemma WirePrefixExact(ss: seq<State>, es: seq<Event>, n: nat, c: nat)
    requires IsRun(ss, es) && n < |ss| && c < |ss[n].boxes|
    ensures var b := ss[n].boxes[c];
            && (b.written <= b.sent <==> !PastClose(b))
            && (PastClose(b) ==>
                  && b.mark < |b.sent| && b.written[..b.mark] == b.sent[..b.mark]
                  && Subsequence(b.written[b.mark..], b.sent[b.mark + 1..]))
  {
    ReachableInv(ss, es, n);
    LettersDiffer(ss, es, n, c);
    PrefixExact(ss[n].boxes[c]);
  }

  /** `mark` is what it says: where the history of sends stood when the peer became closed. */
  lemma MarkIsClosingPoint(ss: seq<State>, es: seq<Event>, m: nat, n: nat, c: nat)
    requires IsRun(ss, es) && m < n < |ss| && c < |ss[m].boxes|
    requires !ss[m].boxes[c].closed && c < |ss[m + 1].boxes| && ss[m + 1].boxes[c].closed
    ensures c < |ss[n].boxes| && ss[n].boxes[c].closed && ss[n].boxes[c].mark == |ss[m].boxes[c].sent|
    decreases n
  {
    if n == m + 1 {
      assert Enabled(ss[m], es[m]);
      StepMark(ss[m], es[m], c);
    } else {
      MarkIsClosingPoint(ss, es, m, n - 1, c);
      assert Enabled(ss[n - 1], es[n - 1]);
      StepMark(ss[n - 1], es[n - 1], c);
    }
  }

  lemma SendMark(b: Box<Letter>, l: Letter)
    ensures var b' := Send(b, l);
            && (b.closed ==> b'.closed && b'.mark == b.mark)
            && (!b.closed && b'.closed ==> b'.mark == |b.sent|)
  {
  }

  lemma TurnMark(b: Box<Letter>, t: Turn)
    requires CanTurn(b, t)
    ensures var b' := TakeTurn(b, t);
            && (b.closed ==> b'.closed && b'.mark == b.mark)
            && (!b.closed && b'.closed ==> b'.mark == |b.sent|)
  {
  }

  lemma StepMark(s: State, e: Event, c: nat)
    requires Enabled(s, e) && c < |s.boxes|
    ensures c < |Step(s, e).boxes|
    ensures var b, b' := s.boxes[c], Step(s, e).boxes[c];
            && (b.closed ==> b'.closed && b'.mark == b.mark)
            && (!b.closed && b'.closed ==> b'.mark == |b.sent|)
  {
    if e.Perform? {
      SendMark(s.boxes[c], Stamp(s.boxes[c], e.c, s.conns[e.c].outbox[0].msg));
    } else if e.Write? && e.c == c {
      TurnMark(s.boxes[c], e.turn);
    }
  }
}
