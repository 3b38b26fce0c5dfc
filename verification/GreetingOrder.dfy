/**
 * When hello.ok is the first message a connection is handed. It is queued after the lock that
 * lists the peer is released, so what another thread sends to the newly listed peer can overtake it.
 */
module GreetingOrder {
  import opened Messages
  import opened HubTables
  import opened Network
  import opened NetworkInvariant
  import opened RunHistory
  import opened SessionTheorems

  /** Listed, with its hello.ok still to be handed over. */
  predicate OwesHello(s: State, c: nat)
    requires c < |s.conns|
  {
    s.conns[c].phase == Greeting && s.conns[c].outbox != []
  }

  predicate AboutSession(m: Msg) {
    m.Ack? || IsRelay(m) || m.PeerGone?
  }

  // ----- what every step keeps -----

  /** The loops of the connection have been started. */
  predicate Dispatching(p: Phase) {
    p == Serving || p == Drained || p == Left
  }

  /** A connection speaks to others about sessions only, and first of all greets itself. */
  predicate Mannered(c: nat, k: Conn) {
    && (k.phase == Greeting ==> Plan(k) == [Delivery(c, HelloOk(k.id))])
    && (Dispatching(k.phase) ==> k.performed != [])
    && (forall d <- Plan(k) :: d.to != c ==> AboutSession(d.msg))
  }

  /** A session's target had been listed when it was opened, and its initiator was dispatching. */
  predicate Ripe(s: State, r: Record) {
    && r.initiator < |s.conns| && r.target < |s.conns|
    && Dispatching(s.conns[r.initiator].phase)
    && s.conns[r.target].phase != Arriving && s.conns[r.target].phase != Rejected
  }

  predicate AllMannered(s: State) {
    forall c :: 0 <= c < |s.conns| ==> Mannered(c, s.conns[c])
  }

  predicate AllRipe(s: State) {
    forall sid :: sid in s.records ==> Ripe(s, s.records[sid])
  }

  lemma DispatchSpeaks(t: Tables<nat>, c: nat, id: PeerId, req: Request, newSid: SessionId, ice: seq<IceServer>)
    ensures forall d <- Dispatch(t, c, id, req, newSid, ice).sends :: d.to != c ==> AboutSession(d.msg)
  {
  }

  lemma {:induction false} NoticesSpeak(order: seq<SessionId>, t: Tables<nat>, id: PeerId)
    ensures forall d <- Notices(order, t, id) :: AboutSession(d.msg)
  {
    if order != [] {
      NoticesSpeak(order[..|order| - 1], t, id);
    }
  }

  lemma ReadMannered(s: State, c: nat, req: Request, newSid: SessionId)
    requires c < |s.conns| && Mannered(c, s.conns[c]) && s.conns[c].phase == Serving && s.conns[c].outbox == []
    ensures Mannered(c, ReadStep(s, c, req, newSid).conns[c])
  {
    var k, k' := s.conns[c], ReadStep(s, c, req, newSid).conns[c];
    DispatchSpeaks(s.tables, c, k.id, req, newSid, s.ice);
    assert Plan(k) == k.performed;
    assert Plan(k') == Plan(k) + k'.outbox;
  }

  lemma LeaveMannered(s: State, c: nat, order: seq<SessionId>)
    requires c < |s.conns| && Mannered(c, s.conns[c]) && s.conns[c].phase == Drained && s.conns[c].outbox == []
    ensures Mannered(c, LeaveStep(s, c, order).conns[c])
  {
    var k, k' := s.conns[c], LeaveStep(s, c, order).conns[c];
    NoticesSpeak(order, s.tables, k.id);
    assert Plan(k) == k.performed;
    assert Plan(k') == Plan(k) + k'.outbox;
  }

  lemma RegisterMannered(s: State, c: nat)
    requires c < |s.conns| && Plan(s.conns[c]) == []
    ensures Mannered(c, RegisterStep(s, c).conns[c])
  {
    assert s.conns[c].performed == [];
  }

  lemma PerformMannered(s: State, c: nat)
    requires c < |s.conns| && Mannered(c, s.conns[c]) && s.conns[c].outbox != []
    ensures Mannered(c, PerformStep(s, c).conns[c])
  {
    assert Plan(PerformStep(s, c).conns[c]) == Plan(s.conns[c]);
  }

  /** The steps of a connection that change its phase or flags only, and those of others. */
  lemma QuietMannered(c: nat, k: Conn, k': Conn)
    requires Mannered(c, k) && Plan(k') == Plan(k) && k'.id == k.id
    requires k'.phase == Greeting ==> k.phase == Greeting
    requires Dispatching(k'.phase) ==> k'.performed != []
    ensures Mannered(c, k')
  {
  }

  lemma OtherMannered(s: State, e: Event, c: nat)
    requires Enabled(s, e) && c < |s.conns| && Mannered(c, s.conns[c])
    requires !((e.Register? || e.Perform? || e.Read? || e.Leave?) && e.c == c)
    ensures c < |Step(s, e).conns| && Mannered(c, Step(s, e).conns[c])
  {
    var k, k' := s.conns[c], Step(s, e).conns[c];
    assert e.Start? && e.c == c ==> k.performed == Plan(k);
    QuietMannered(c, k, k');
  }

  lemma StepMannered(s: State, e: Event, c: nat)
    requires ConnsOk(s) && Enabled(s, e) && c < |s.conns| && Mannered(c, s.conns[c])
    ensures c < |Step(s, e).conns| && Mannered(c, Step(s, e).conns[c])
  {
    assert ConnOk(s, c);
    if e.Register? && e.c == c {
      RegisterMannered(s, c);
    } else if e.Perform? && e.c == c {
      PerformMannered(s, c);
    } else if e.Read? && e.c == c {
      ReadMannered(s, c, e.req, e.newSid);
    } else if e.Leave? && e.c == c {
      LeaveMannered(s, c, e.order);
    } else {
      OtherMannered(s, e, c);
    }
  }

  lemma StepKeepsMannered(s: State, e: Event)
    requires ConnsOk(s) && AllMannered(s) && Enabled(s, e)
    ensures AllMannered(Step(s, e))
  {
    forall c | 0 <= c < |Step(s, e).conns|
      ensures Mannered(c, Step(s, e).conns[c])
    {
      if c < |s.conns| {
        StepMannered(s, e, c);
      }
    }
  }

  lemma PhaseAdvances(s: State, e: Event, c: nat)
    requires Enabled(s, e) && c < |s.conns|
    ensures c < |Step(s, e).conns|
    ensures var p, q := s.conns[c].phase, Step(s, e).conns[c].phase;
            && (Dispatching(p) ==> Dispatching(q))
            && (p != Arriving && p != Rejected ==> q != Arriving && q != Rejected)
  {
  }

  lemma OpeningRipe(s: State, e: Event)
    requires TablesOk(s) && e.Read? && Opens(s, e, e.newSid)
    ensures Ripe(Step(s, e), OpenedRecord(s, e))
  {
    assert Owns(s, e.req.peer) && Listed(s, s.tables.peers[e.req.peer]);
  }

  lemma StepKeepsRipe(s: State, e: Event)
    requires TablesOk(s) && AllRipe(s) && Enabled(s, e)
    ensures AllRipe(Step(s, e))
  {
    var s' := Step(s, e);
    StepGrowsSessions(s, e);
    forall sid | sid in s'.records
      ensures Ripe(s', s'.records[sid])
    {
      if sid in s.records {
        PhaseAdvances(s, e, s.records[sid].initiator);
        PhaseAdvances(s, e, s.records[sid].target);
      } else {
        StepOpens(s, e, sid);
        OpeningRipe(s, e);
      }
    }
  }

  lemma {:induction false} MannersReachable(ss: seq<State>, es: seq<Event>, n: nat)
    requires IsRun(ss, es) && n < |ss|
    ensures Inv(ss[n]) && AllMannered(ss[n]) && AllRipe(ss[n])
  {
    ReachableInv(ss, es, n);
    if n > 0 {
      MannersReachable(ss, es, n - 1);
      RunStep(ss, es, n - 1);
      StepKeepsMannered(ss[n - 1], es[n - 1]);
      StepKeepsRipe(ss[n - 1], es[n - 1]);
    }
  }

  // ----- what reaches a connection before its greeting -----

  /** `e` hands `c` a message from another connection while `c` owes itself the hello.ok. */
  predicate Overtakes(s: State, e: Event, c: nat) {
    && e.Perform? && Enabled(s, e) && e.c != c && c < |s.conns|
    && s.conns[e.c].outbox[0].to == c && OwesHello(s, c)
  }

  /** What a thread hands to another connection is about a session between the two. */
  lemma NextIsAboutSession(s: State, x: nat, c: nat)
    requires Inv(s) && AllMannered(s) && x < |s.conns| && s.conns[x].outbox != []
    requires x != c && s.conns[x].outbox[0].to == c
    ensures var m := s.conns[x].outbox[0].msg;
            AboutSession(m) && m.session in s.records && Counterparts(s.records[m.session], x, c)
  {
    var k := s.conns[x];
    var m := k.outbox[0].msg;
    assert ConnOk(s, x) && Mannered(x, k) && k.outbox[0] in Plan(k);
    PlannedInStory(s, x, c, m, m.session);
  }

  /** A letter from another connection is no greeting. */
  lemma OthersDoNotGreet(s: State, c: nat, l: Letter)
    requires Inv(s) && AllMannered(s) && c < |s.boxes| && l in s.boxes[c].sent && l.from != c
    ensures AboutSession(l.msg)
  {
    LetterHeard(s.boxes[c].sent, l);
    assert ChannelFifo(s, l.from, c) && Mannered(l.from, s.conns[l.from]);
    ToMembers(s.conns[l.from].performed, c);
    assert Delivery(c, l.msg) in Plan(s.conns[l.from]);
  }

  /** Nothing has been handed to a connection by itself while it owes its hello.ok. */
  lemma OwingHasSaidNothing(s: State, c: nat)
    requires Inv(s) && AllMannered(s) && c < |s.conns| && c < |s.boxes| && OwesHello(s, c)
    ensures From(s.boxes[c].sent, c) == []
  {
    assert Mannered(c, s.conns[c]) && ChannelFifo(s, c, c);
    assert s.conns[c].performed == [];
  }

  /** A listed connection that has handed itself nothing owes its hello.ok, and next of all. */
  lemma SilentOwesHello(s: State, c: nat)
    requires Inv(s) && AllMannered(s) && c < |s.conns| && c < |s.boxes| && From(s.boxes[c].sent, c) == []
    requires s.conns[c].phase != Arriving && s.conns[c].phase != Rejected
    ensures OwesHello(s, c) && s.conns[c].outbox[0] == Delivery(c, HelloOk(s.conns[c].id))
  {
    var k := s.conns[c];
    assert ConnOk(s, c) && ChannelFifo(s, c, c) && Mannered(c, k);
    if k.performed != [] {
      assert k.performed[0] == Plan(k)[0] == Delivery(c, HelloOk(k.id));
      ToMembers(k.performed, c);
    }
    assert k.outbox == Plan(k);
  }

  /** Whoever is handed something by another connection, or by itself, has been listed. */
  lemma HandedIsListed(s: State, e: Event, c: nat, k: nat)
    requires Inv(s) && AllMannered(s) && AllRipe(s) && HandsOver(s, e, c, k)
    ensures c < |s.conns| && s.conns[c].phase != Arriving && s.conns[c].phase != Rejected
  {
    assert ConnOk(s, e.c);
    if e.c != c {
      NextIsAboutSession(s, e.c, c);
      assert Ripe(s, s.records[s.conns[e.c].outbox[0].msg.session]);
    }
  }

  lemma OvertakenFirst(ss: seq<State>, es: seq<Event>, m: nat, n: nat, c: nat)
    requires IsRun(ss, es) && m < n < |ss| && c < |ss[m].conns| && Overtakes(ss[m], es[m], c)
    ensures c < |ss[n].boxes| && ss[n].boxes[c].sent != [] && AboutSession(ss[n].boxes[c].sent[0].msg)
  {
    MannersReachable(ss, es, m);
    MannersReachable(ss, es, m + 1);
    RunGrows(ss, es, m + 1, n);
    StepHands(ss[m], es[m], c);
    OwingHasSaidNothing(ss[m], c);
    var first := ss[m + 1].boxes[c].sent[0];
    assert first == ss[n].boxes[c].sent[0];
    if first.from == c {
      LetterHeard(ss[m].boxes[c].sent, first);
    }
    OthersDoNotGreet(ss[m + 1], c, first);
  }

  /**
   * Exactly when hello.ok comes first: the first message that a connection is handed is its
   * hello.ok if and only if no other connection's send reached it while it owed the hello.ok.
   */
  lemma HelloFirstExact(ss: seq<State>, es: seq<Event>, n: nat, c: nat)
    requires IsRun(ss, es) && n < |ss| && c < |ss[n].boxes| && ss[n].boxes[c].sent != []
    ensures c < |ss[n].conns|
    ensures ss[n].boxes[c].sent[0].msg == HelloOk(ss[n].conns[c].id)
       <==> forall m :: 0 <= m < n ==> !Overtakes(ss[m], es[m], c)
  {
    MannersReachable(ss, es, n);
    forall m | 0 <= m < n && Overtakes(ss[m], es[m], c)
      ensures !ss[n].boxes[c].sent[0].msg.HelloOk?
    {
      OvertakenFirst(ss, es, m, n, c);
    }
    var m := HandedAt(ss, es, n, c, 0);
    FirstHandOver(ss, es, m, c);
    RunGrows(ss, es, m, n);
    assert ConnGrows(ss[m].conns[c], ss[n].conns[c]);
  }

  /** The very first message is handed over while the hello.ok is owed. */
  lemma FirstHandOver(ss: seq<State>, es: seq<Event>, m: nat, c: nat)
    requires IsRun(ss, es) && m < |es| && HandsOver(ss[m], es[m], c, 0)
    ensures c < |ss[m].conns| && OwesHello(ss[m], c)
    ensures es[m].c == c ==> NextLetter(ss[m], es[m]).msg == HelloOk(ss[m].conns[c].id)
  {
    MannersReachable(ss, es, m);
    HandedIsListed(ss[m], es[m], c, 0);
    SilentOwesHello(ss[m], c);
  }

  /**
   * Everything handed to a connection ahead of its hello.ok is about a session that another
   * connection, the one whose thread handed it over, has opened with it.
   */
  lemma AheadOfHello(ss: seq<State>, es: seq<Event>, n: nat, c: nat, j: nat)
    requires IsRun(ss, es) && n < |ss| && c < |ss[n].boxes| && c < |ss[n].conns| && j < |ss[n].boxes[c].sent|
    requires forall h :: 0 <= h <= j ==> ss[n].boxes[c].sent[h].msg != HelloOk(ss[n].conns[c].id)
    ensures var l := ss[n].boxes[c].sent[j];
            && l.from != c && AboutSession(l.msg) && l.msg.session in ss[n].records
            && ss[n].records[l.msg.session] == Record(l.from, c)
  {
    var m := HandedAt(ss, es, n, c, j);
    RunGrows(ss, es, m, n);
    MannersReachable(ss, es, m);
    HandedIsListed(ss[m], es[m], c, j);
    assert ConnGrows(ss[m].conns[c], ss[n].conns[c]);
    NoHelloIsSilent(ss[m], c);
    SilentOwesHello(ss[m], c);
    NextIsAboutSession(ss[m], es[m].c, c);
    assert Ripe(ss[m], ss[m].records[NextLetter(ss[m], es[m]).msg.session]);
  }

  /** A connection that has been handed no hello.ok has handed itself nothing. */
  lemma NoHelloIsSilent(s: State, c: nat)
    requires Inv(s) && c < |s.conns| && c < |s.boxes|
    requires forall l <- s.boxes[c].sent :: l.msg != HelloOk(s.conns[c].id)
    ensures From(s.boxes[c].sent, c) == []
  {
    var k := s.conns[c];
    assert ConnOk(s, c) && ChannelFifo(s, c, c);
    if From(s.boxes[c].sent, c) != [] {
      var m := From(s.boxes[c].sent, c)[0];
      assert m in To(k.performed, c);
      ToMembers(k.performed, c);
      assert k.performed[0] == Plan(k)[0] == Delivery(c, HelloOk(k.id));
      assert HelloOk(k.id) in From(s.boxes[c].sent, c);
      var l := HeardLetter(s.boxes[c].sent, c, HelloOk(k.id));
    }
  }

  /**
   * What a deployment can check: hello.ok comes first if no `session.req` naming the peer is
   * dispatched between the step that lists it and the hand-over of its hello.ok.
   */
  lemma HelloFirstIfUncalled(ss: seq<State>, es: seq<Event>, n: nat, c: nat)
    requires IsRun(ss, es) && n < |ss| && c < |ss[n].boxes| && ss[n].boxes[c].sent != []
    requires forall q :: 0 <= q < n && c < |ss[q].conns| && OwesHello(ss[q], c) && es[q].Read? ==>
               es[q].req != SessionReq(ss[q].conns[c].id)
    ensures c < |ss[n].conns| && ss[n].boxes[c].sent[0].msg == HelloOk(ss[n].conns[c].id)
  {
    var m := HandedAt(ss, es, n, c, 0);
    FirstHandOver(ss, es, m, c);
    RunGrows(ss, es, m, n);
    assert ConnGrows(ss[m].conns[c], ss[n].conns[c]);
    if es[m].c != c {
      MannersReachable(ss, es, m);
      NextIsAboutSession(ss[m], es[m].c, c);
      var sid := NextLetter(ss[m], es[m]).msg.session;
      assert Ripe(ss[m], ss[m].records[sid]);
      var r := OpenedAt(ss, es, m, sid);
      CalledWhileOwing(ss, es, r, m, c, sid);
    }
  }

  lemma CalledWhileOwing(ss: seq<State>, es: seq<Event>, r: nat, m: nat, c: nat, sid: SessionId)
    requires IsRun(ss, es) && r < m < |ss| && c < |ss[m].boxes| && ss[m].boxes[c].sent == []
    requires Opens(ss[r], es[r], sid) && OpenedRecord(ss[r], es[r]).target == c
    ensures c < |ss[r].conns| && OwesHello(ss[r], c) && es[r].req == SessionReq(ss[r].conns[c].id)
  {
    MannersReachable(ss, es, r);
    RunGrows(ss, es, r, m);
    assert Owns(ss[r], es[r].req.peer) && Listed(ss[r], c) && ConnOk(ss[r], c);
    SilentOwesHello(ss[r], c);
  }
}
