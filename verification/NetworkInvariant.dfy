/**
 * What every step of the server keeps. The central fact is `LanesTold`: for every session and
 * every ordered pair of connections, the messages decided so far are exactly the ones that the
 * session's history calls for. `ChannelsFifo` then carries it across the gap between a locked
 * step and the sends that follow it.
 */
module NetworkInvariant {
  import opened Sequences
  import opened Messages
  import opened HubTables
  import opened Mailbox
  import opened Network

  // ----- connections -----

  predicate ConnOk(s: State, c: nat)
    requires c < |s.conns| && c < |s.boxes|
  {
    var k := s.conns[c];
    && (k.phase == Arriving || k.phase == Rejected ==> Plan(k) == [])
    && (k.phase == Drained ==> k.outbox == [])
    && (Enrolled(k.phase) || k.phase == Left ==> Plan(k) != [] && Plan(k)[0] == Delivery(c, HelloOk(k.id)))
    && (k.phase == Left ==> s.boxes[c].writer.Stopped?)
    && (s.boxes[c].writer.Idle? <==> (k.phase == Arriving || k.phase == Rejected || k.phase == Greeting))
    && (forall d <- Plan(k) :: d.to < |s.conns|)
    && (forall r <- k.routed :: (r.Sdp? || r.Ice?) && r.session in s.records)
  }

  predicate ConnsOk(s: State) {
    && |s.boxes| == |s.conns|
    && forall c :: 0 <= c < |s.conns| ==> ConnOk(s, c)
  }

  // ----- tables -----

  /** The ids of a live session are bound to the connections it was opened between. */
  predicate Bound(s: State, sid: SessionId)
    requires sid in s.tables.sessions && sid in s.records
  {
    var r, x := s.records[sid], s.tables.sessions[sid];
    && x.initiator in s.tables.peers && s.tables.peers[x.initiator] == r.initiator
    && x.target in s.tables.peers && s.tables.peers[x.target] == r.target
  }

  /** Exactly the connections between `Register` and `Unregister` are listed, under their own id. */
  predicate Listed(s: State, c: nat)
    requires c < |s.conns|
  {
    Enrolled(s.conns[c].phase) <==> s.conns[c].id in s.tables.peers && s.tables.peers[s.conns[c].id] == c
  }

  predicate Owns(s: State, id: PeerId)
    requires id in s.tables.peers
  {
    s.tables.peers[id] < |s.conns| && s.conns[s.tables.peers[id]].id == id
  }

  predicate RecordOk(s: State, sid: SessionId)
    requires sid in s.records
  {
    && s.records[sid].initiator < |s.conns| && s.records[sid].target < |s.conns|
    && (sid in s.tables.sessions <==> sid !in s.removed)
    && (sid in s.tables.sessions ==> Bound(s, sid))
  }

  predicate PeersOk(s: State) {
    && (forall c :: 0 <= c < |s.conns| ==> Listed(s, c))
    && (forall id :: id in s.tables.peers ==> Owns(s, id))
  }

  predicate RecordsOk(s: State) {
    && s.tables.sessions.Keys <= s.records.Keys
    && s.removed.Keys <= s.records.Keys
    && forall sid :: sid in s.records ==> RecordOk(s, sid)
  }

  predicate TablesOk(s: State) {
    PeersOk(s) && RecordsOk(s)
  }

  // ----- the story of a session -----

  function IdOf(s: State, c: nat): PeerId {
    if c < |s.conns| then s.conns[c].id else ""
  }

  /** The messages that relaying the requests of `routed` about `sid` calls for. */
  function Relayed(routed: seq<Request>, sid: SessionId): seq<Msg> {
    if routed == [] then []
    else
      var k := |routed| - 1;
      var r := routed[k];
      Relayed(routed[..k], sid) + (if (r.Sdp? || r.Ice?) && r.session == sid then [Relay(r)] else [])
  }

  function Opening(s: State, sid: SessionId, from: nat, to: nat): seq<Msg>
    requires sid in s.records
  {
    var r := s.records[sid];
    if from != r.initiator then []
    else
      (if to == r.initiator then [Ack(sid, IdOf(s, r.target), s.ice, true)] else [])
      + (if to == r.target then [Ack(sid, IdOf(s, r.initiator), s.ice, false)] else [])
  }

  function Closing(s: State, sid: SessionId, from: nat, to: nat): seq<Msg>
    requires sid in s.records
  {
    if sid !in s.removed || s.removed[sid].remover != from || !Counterparts(s.records[sid], from, to) then []
    else match s.removed[sid]
      case ByBye(_, reason) => [PeerGone(sid, reason)]
      case ByDisconnect(_) => if from == to then [] else [PeerGone(sid, DISCONNECTED)]
  }

  /** What `from` must have decided to send `to` about `sid`, given the session's history. */
  function Story(s: State, sid: SessionId, from: nat, to: nat): seq<Msg>
    requires from < |s.conns|
  {
    if sid !in s.records then []
    else
      Opening(s, sid, from, to)
      + (if Counterparts(s.records[sid], from, to) then Relayed(s.conns[from].routed, sid) else [])
      + Closing(s, sid, from, to)
  }

  ghost predicate LanesTold(s: State) {
    forall sid, from, to :: 0 <= from < |s.conns| && 0 <= to < |s.conns| ==>
      Lane(s, sid, from, to) == Story(s, sid, from, to)
  }

  /** Each receiver has been handed, from each sender, exactly the sends that sender has made. */
  predicate ChannelFifo(s: State, from: nat, to: nat)
    requires from < |s.conns| && to < |s.boxes|
  {
    From(s.boxes[to].sent, from) == To(s.conns[from].performed, to)
  }

  predicate ChannelsFifo(s: State) {
    && |s.boxes| == |s.conns|
    && (forall from, to :: 0 <= from < |s.conns| && 0 <= to < |s.conns| ==> ChannelFifo(s, from, to))
    && (forall to :: 0 <= to < |s.boxes| ==> forall l <- s.boxes[to].sent :: l.from < |s.conns|)
  }

  predicate BoxesSound(s: State) {
    forall c :: 0 <= c < |s.boxes| ==> Sound(s.boxes[c])
  }

  ghost predicate Inv(s: State) {
    ConnsOk(s) && TablesOk(s) && LanesTold(s) && ChannelsFifo(s) && BoxesSound(s)
  }

  // ----- preservation: connections, tables, boxes -----

  lemma DispatchTargets(t: Tables<nat>, self: nat, id: PeerId, req: Request, newSid: SessionId, ice: seq<IceServer>, n: nat)
    requires self < n && forall p <- t.peers :: t.peers[p] < n
    ensures forall d <- Dispatch(t, self, id, req, newSid, ice).sends :: d.to < n
  {
  }

  lemma {:induction false} NoticeTargets(order: seq<SessionId>, t: Tables<nat>, id: PeerId, n: nat)
    requires forall p <- t.peers :: t.peers[p] < n
    ensures forall d <- Notices(order, t, id) :: d.to < n
  {
    if order != [] {
      NoticeTargets(order[..|order| - 1], t, id, n);
    }
  }

  /** A connection that the step does not touch stays well-formed. */
  lemma ConnFrame(s: State, s': State, c: nat)
    requires c < |s.conns| && c < |s.boxes| && ConnOk(s, c)
    requires c < |s'.conns| && c < |s'.boxes| && |s.conns| <= |s'.conns|
    requires s'.conns[c] == s.conns[c] && s'.boxes[c].writer == s.boxes[c].writer
    requires s.records.Keys <= s'.records.Keys
    ensures ConnOk(s', c)
  {
  }

  lemma PerformKeepsConn(s: State, c: nat)
    requires c < |s.conns| && c < |s.boxes| && ConnOk(s, c) && s.conns[c].outbox != []
    ensures c < |PerformStep(s, c).boxes| && ConnOk(PerformStep(s, c), c)
  {
    assert Plan(PerformStep(s, c).conns[c]) == Plan(s.conns[c]);
  }

  lemma PlanExtended(k: Conn, k': Conn, ds: seq<Delivery<nat>>)
    requires k.outbox == [] && k'.performed == k.performed && k'.outbox == ds
    ensures Plan(k') == Plan(k) + ds
  {
  }

  /** A connection whose thread has decided on new sends stays well-formed. */
  lemma DecidedKeepsConn(s: State, s': State, c: nat)
    requires c < |s.conns| == |s'.conns| && c < |s.boxes| == |s'.boxes| && ConnOk(s, c)
    requires s'.boxes[c].writer == s.boxes[c].writer && s.records.Keys <= s'.records.Keys
    requires var k, k' := s.conns[c], s'.conns[c];
             && k.outbox == [] && k'.performed == k.performed && k'.id == k.id
             && ((k.phase == Serving && k'.phase == Serving)
                 || (k.phase == Drained && k'.phase == Left && s.boxes[c].writer.Stopped?))
             && (forall d <- k'.outbox :: d.to < |s.conns|)
             && (forall q <- k'.routed :: (q.Sdp? || q.Ice?) && q.session in s'.records)
    ensures ConnOk(s', c)
  {
    var k, k' := s.conns[c], s'.conns[c];
    assert k.performed == Plan(k);
    assert Plan(k') == Plan(k) + k'.outbox;
  }

  /** Only frames about live sessions are routed. */
  lemma ReadKeepsRouted(s: State, c: nat, req: Request, newSid: SessionId)
    requires c < |s.conns| && c < |s.boxes| && ConnOk(s, c) && s.tables.sessions.Keys <= s.records.Keys
    ensures var s' := ReadStep(s, c, req, newSid);
            && s.records.Keys <= s'.records.Keys
            && forall q <- s'.conns[c].routed :: (q.Sdp? || q.Ice?) && q.session in s'.records
  {
  }

  lemma ListedBelow(s: State)
    requires PeersOk(s)
    ensures forall p <- s.tables.peers :: s.tables.peers[p] < |s.conns|
  {
    forall p | p in s.tables.peers
      ensures s.tables.peers[p] < |s.conns|
    {
      assert Owns(s, p);
    }
  }

  lemma ReadKeepsConn(s: State, c: nat, req: Request, newSid: SessionId)
    requires ConnsOk(s) && TablesOk(s) && Enabled(s, Read(c, req, newSid))
    ensures ConnOk(ReadStep(s, c, req, newSid), c)
  {
    assert ConnOk(s, c);
    ListedBelow(s);
    ReadKeepsRouted(s, c, req, newSid);
    DispatchTargets(s.tables, c, s.conns[c].id, req, newSid, s.ice, |s.conns|);
    DecidedKeepsConn(s, ReadStep(s, c, req, newSid), c);
  }

  lemma LeaveKeepsConn(s: State, c: nat, order: seq<SessionId>)
    requires ConnsOk(s) && TablesOk(s) && Enabled(s, Leave(c, order))
    ensures ConnOk(LeaveStep(s, c, order), c)
  {
    assert ConnOk(s, c);
    ListedBelow(s);
    NoticeTargets(order, s.tables, s.conns[c].id, |s.conns|);
    DecidedKeepsConn(s, LeaveStep(s, c, order), c);
  }

  lemma RegisterKeepsConn(s: State, c: nat)
    requires c < |s.conns| && c < |s.boxes| && ConnOk(s, c) && s.conns[c].phase == Arriving
    ensures ConnOk(RegisterStep(s, c), c)
  {
  }

  /** The steps by which a connection changes its own phase, flags or writer. */
  lemma OwnStepKeepsConn(s: State, e: Event)
    requires e.Start? || e.ReadEnd? || e.Cancel? || e.Wake? || e.Write?
    requires Enabled(s, e) && ConnOk(s, e.c)
    ensures e.c < |Step(s, e).conns| && e.c < |Step(s, e).boxes| && ConnOk(Step(s, e), e.c)
  {
    assert Plan(Step(s, e).conns[e.c]) == Plan(s.conns[e.c]);
  }

  /** What a step leaves alone of the connections that it is not about. */
  lemma OthersUntouched(s: State, e: Event, c: nat)
    requires Enabled(s, e) && c < |s.conns| && c < |s.boxes| && (e.Arrive? || e.c != c)
    ensures var s' := Step(s, e);
            && |s.conns| <= |s'.conns| && |s.boxes| <= |s'.boxes|
            && s'.conns[c] == s.conns[c] && s'.boxes[c].writer == s.boxes[c].writer
            && s.records.Keys <= s'.records.Keys
  {
  }

  lemma OwnKeepsConn(s: State, e: Event)
    requires ConnsOk(s) && TablesOk(s) && Enabled(s, e) && !e.Arrive?
    ensures e.c < |Step(s, e).conns| && e.c < |Step(s, e).boxes| && ConnOk(Step(s, e), e.c)
  {
    assert ConnOk(s, e.c);
    match e {
      case Register(c) => RegisterKeepsConn(s, c);
      case Perform(c) => PerformKeepsConn(s, c);
      case Read(c, req, newSid) => ReadKeepsConn(s, c, req, newSid);
      case Leave(c, order) => LeaveKeepsConn(s, c, order);
      case _ => OwnStepKeepsConn(s, e);
    }
  }

  lemma StepKeepsConn(s: State, e: Event, x: nat)
    requires ConnsOk(s) && TablesOk(s) && Enabled(s, e) && x < |s.conns|
    ensures x < |Step(s, e).conns| && x < |Step(s, e).boxes| && ConnOk(Step(s, e), x)
  {
    assert ConnOk(s, x);
    if !e.Arrive? && e.c == x {
      OwnKeepsConn(s, e);
    } else {
      OthersUntouched(s, e, x);
      ConnFrame(s, Step(s, e), x);
    }
  }

  lemma SizesTogether(s: State, e: Event)
    requires |s.boxes| == |s.conns| && Enabled(s, e)
    ensures |Step(s, e).boxes| == |Step(s, e).conns| == |s.conns| + (if e.Arrive? then 1 else 0)
    ensures e.Arrive? ==>
              Step(s, e).boxes[|s.conns|] == NewBox() && Step(s, e).conns[|s.conns|] == Conn(e.id, Arriving, [], false, false, [], [])
  {
  }

  lemma StepKeepsConns(s: State, e: Event)
    requires ConnsOk(s) && TablesOk(s) && Enabled(s, e)
    ensures ConnsOk(Step(s, e))
  {
    SizesTogether(s, e);
    forall x | 0 <= x < |Step(s, e).conns|
      ensures ConnOk(Step(s, e), x)
    {
      if x < |s.conns| {
        StepKeepsConn(s, e, x);
      }
    }
  }

  lemma StepKeepsListed(s: State, e: Event, c: nat)
    requires Enabled(s, e) && c < |s.conns| && Listed(s, c)
    requires e.Leave? ==> Listed(s, e.c)
    ensures c < |Step(s, e).conns| && Listed(Step(s, e), c)
  {
  }

  lemma ArriveKeepsListed(s: State, id: PeerId)
    requires |s.boxes| == |s.conns| && (id in s.tables.peers ==> Owns(s, id))
    ensures Listed(Step(s, Arrive(id)), |s.conns|)
  {
  }

  lemma StepKeepsOwns(s: State, e: Event, id: PeerId)
    requires Enabled(s, e) && id in Step(s, e).tables.peers
    requires id in s.tables.peers ==> Owns(s, id)
    ensures Owns(Step(s, e), id)
  {
  }

  lemma StepKeepsPeers(s: State, e: Event)
    requires PeersOk(s) && Enabled(s, e)
    ensures PeersOk(Step(s, e))
  {
    var s' := Step(s, e);
    forall c | 0 <= c < |s'.conns|
      ensures Listed(s', c)
    {
      if c < |s.conns| {
        assert Listed(s, c);
        assert e.Leave? ==> Listed(s, e.c);
        StepKeepsListed(s, e, c);
      } else {
        assert e.Arrive?;
        assert e.id in s.tables.peers ==> Owns(s, e.id);
        ArriveKeepsListed(s, e.id);
      }
    }
    forall id | id in s'.tables.peers
      ensures Owns(s', id)
    {
      assert id in s.tables.peers ==> Owns(s, id);
      StepKeepsOwns(s, e, id);
    }
  }

  /** A record survives a step that changes neither its session nor its members' enrolment. */
  lemma RecordFrame(s: State, s': State, sid: SessionId)
    requires sid in s.records && RecordOk(s, sid) && |s.conns| <= |s'.conns|
    requires sid in s'.records && s'.records[sid] == s.records[sid]
    requires sid in s'.removed <==> sid in s.removed
    requires sid in s'.tables.sessions <==> sid in s.tables.sessions
    requires sid in s.tables.sessions ==>
               && s'.tables.sessions[sid] == s.tables.sessions[sid]
               && forall id | Involves(s.tables.sessions[sid], id) ::
                    id in s'.tables.peers && id in s.tables.peers && s'.tables.peers[id] == s.tables.peers[id]
    ensures RecordOk(s', sid)
  {
    if sid in s.tables.sessions {
      assert Involves(s.tables.sessions[sid], s.tables.sessions[sid].initiator);
      assert Involves(s.tables.sessions[sid], s.tables.sessions[sid].target);
    }
  }

  /** Steps that only add peers and leave the sessions and their histories alone. */
  lemma QuietKeepsRecords(s: State, s': State)
    requires RecordsOk(s) && |s.conns| <= |s'.conns|
    requires s'.tables.sessions == s.tables.sessions && s'.records == s.records && s'.removed == s.removed
    requires forall id :: id in s.tables.peers ==> id in s'.tables.peers && s'.tables.peers[id] == s.tables.peers[id]
    ensures RecordsOk(s')
  {
    forall sid | sid in s'.records
      ensures RecordOk(s', sid)
    {
      assert RecordOk(s, sid);
      if sid in s.tables.sessions {
        assert Bound(s, sid);
      }
      RecordFrame(s, s', sid);
    }
  }

  lemma OpenKeepsRecords(s: State, c: nat, peer: PeerId, newSid: SessionId)
    requires TablesOk(s) && Enabled(s, Read(c, SessionReq(peer), newSid)) && peer in s.tables.peers
    ensures RecordsOk(ReadStep(s, c, SessionReq(peer), newSid))
  {
    var s' := ReadStep(s, c, SessionReq(peer), newSid);
    assert Listed(s, c);
    assert Owns(s, peer);
    forall sid | sid in s'.records
      ensures RecordOk(s', sid)
    {
      if sid != newSid {
        assert RecordOk(s, sid);
      }
    }
  }

  lemma ByeKeepsRecords(s: State, c: nat, sid: SessionId, reason: string, newSid: SessionId)
    requires TablesOk(s) && Enabled(s, Read(c, Bye(sid, reason), newSid))
    ensures RecordsOk(ReadStep(s, c, Bye(sid, reason), newSid))
  {
    var s' := ReadStep(s, c, Bye(sid, reason), newSid);
    forall x | x in s'.records
      ensures RecordOk(s', x)
    {
      assert RecordOk(s, x);
    }
  }

  lemma LeaveKeepsRecords(s: State, c: nat, order: seq<SessionId>)
    requires RecordsOk(s) && Enabled(s, Leave(c, order))
    ensures RecordsOk(LeaveStep(s, c, order))
  {
    var s' := LeaveStep(s, c, order);
    forall sid | sid in s'.records
      ensures RecordOk(s', sid)
    {
      assert RecordOk(s, sid);
    }
  }

  lemma ReadKeepsRecords(s: State, c: nat, req: Request, newSid: SessionId)
    requires TablesOk(s) && Enabled(s, Read(c, req, newSid))
    ensures RecordsOk(ReadStep(s, c, req, newSid))
  {
    if req.SessionReq? && req.peer in s.tables.peers {
      OpenKeepsRecords(s, c, req.peer, newSid);
    } else if req.Bye? {
      ByeKeepsRecords(s, c, req.session, req.reason, newSid);
    } else {
      var s' := ReadStep(s, c, req, newSid);
      assert s'.tables == s.tables;
      QuietKeepsRecords(s, s');
    }
  }

  /** Steps that neither dispatch nor unregister leave the sessions and their histories alone. */
  lemma OtherStepsKeepSessions(s: State, e: Event)
    requires Enabled(s, e) && !e.Read? && !e.Leave?
    ensures var s' := Step(s, e);
            && |s.conns| <= |s'.conns|
            && s'.tables.sessions == s.tables.sessions && s'.records == s.records && s'.removed == s.removed
            && forall id :: id in s.tables.peers ==> id in s'.tables.peers && s'.tables.peers[id] == s.tables.peers[id]
  {
  }

  lemma StepKeepsRecords(s: State, e: Event)
    requires TablesOk(s) && Enabled(s, e)
    ensures RecordsOk(Step(s, e))
  {
    if e.Read? {
      ReadKeepsRecords(s, e.c, e.req, e.newSid);
    } else if e.Leave? {
      LeaveKeepsRecords(s, e.c, e.order);
    } else {
      OtherStepsKeepSessions(s, e);
      QuietKeepsRecords(s, Step(s, e));
    }
  }

  lemma StepKeepsTables(s: State, e: Event)
    requires TablesOk(s) && Enabled(s, e)
    ensures TablesOk(Step(s, e))
  {
    StepKeepsPeers(s, e);
    StepKeepsRecords(s, e);
  }

  lemma StepKeepsBoxes(s: State, e: Event)
    requires ConnsOk(s) && BoxesSound(s) && Enabled(s, e)
    ensures BoxesSound(Step(s, e))
  {
    match e {
      case Arrive(_) => NewBoxSound<Letter>();
      case Perform(c) =>
        var d := s.conns[c].outbox[0];
        if d.to < |s.boxes| {
          SendKeepsSound(s.boxes[d.to], Stamp(s.boxes[d.to], c, d.msg));
        }
      case Start(c) =>
        assert ConnOk(s, c);
        StartKeepsSound(s.boxes[c]);
      case Write(c, turn) => TurnKeepsSound(s.boxes[c], turn);
      case _ =>
    }
  }

  // ----- preservation: channels -----

  lemma FromAppend(letters: seq<Letter>, l: Letter, from: nat)
    ensures From(letters + [l], from) == From(letters, from) + (if l.from == from then [l.msg] else [])
  {
    assert (letters + [l])[..|letters|] == letters;
  }

  lemma {:induction false} FromNobody(letters: seq<Letter>, from: nat)
    requires forall l <- letters :: l.from != from
    ensures From(letters, from) == []
  {
    if letters != [] {
      FromNobody(letters[..|letters| - 1], from);
    }
  }

  lemma {:induction false} ToNobody(ds: seq<Delivery<nat>>, to: nat)
    requires forall d <- ds :: d.to != to
    ensures To(ds, to) == []
  {
    if ds != [] {
      ToNobody(ds[..|ds| - 1], to);
    }
  }

  lemma ArriveKeepsChannels(s: State, id: PeerId)
    requires ConnsOk(s) && ChannelsFifo(s) && Enabled(s, Arrive(id))
    ensures ChannelsFifo(Step(s, Arrive(id)))
  {
    var s' := Step(s, Arrive(id));
    var n := |s.conns|;
    forall from, to | 0 <= from < |s'.conns| && 0 <= to < |s'.conns|
      ensures ChannelFifo(s', from, to)
    {
      if from < n && to < n {
        assert ChannelFifo(s, from, to);
      } else if from < n {
        assert ConnOk(s, from);
        ToNobody(s.conns[from].performed, to);
      } else if to < n {
        FromNobody(s.boxes[to].sent, from);
      }
    }
  }

  lemma PerformKeepsChannels(s: State, c: nat)
    requires ConnsOk(s) && ChannelsFifo(s) && Enabled(s, Perform(c))
    ensures ChannelsFifo(PerformStep(s, c))
  {
    var s' := PerformStep(s, c);
    var k := s.conns[c];
    var d := k.outbox[0];
    assert ConnOk(s, c) && d in Plan(k);
    forall from, to | 0 <= from < |s'.conns| && 0 <= to < |s'.conns|
      ensures ChannelFifo(s', from, to)
    {
      assert ChannelFifo(s, from, to);
      FromAppend(s.boxes[d.to].sent, Stamp(s.boxes[d.to], c, d.msg), from);
      ToAppend(k.performed, d, to);
    }
  }

  /** Only `Arrive` and `Perform` touch what has been handed over. */
  lemma OtherStepsHandNothing(s: State, e: Event)
    requires Enabled(s, e) && !e.Arrive? && !e.Perform?
    ensures var s' := Step(s, e);
            && |s'.conns| == |s.conns| && |s'.boxes| == |s.boxes|
            && (forall x :: 0 <= x < |s.conns| ==> s'.conns[x].performed == s.conns[x].performed)
            && (forall x :: 0 <= x < |s.boxes| ==> s'.boxes[x].sent == s.boxes[x].sent)
  {
  }

  lemma QuietKeepsChannels(s: State, s': State)
    requires ChannelsFifo(s) && |s'.conns| == |s.conns| && |s'.boxes| == |s.boxes|
    requires forall x :: 0 <= x < |s.conns| ==> s'.conns[x].performed == s.conns[x].performed
    requires forall x :: 0 <= x < |s.boxes| ==> s'.boxes[x].sent == s.boxes[x].sent
    ensures ChannelsFifo(s')
  {
    forall from, to | 0 <= from < |s'.conns| && 0 <= to < |s'.conns|
      ensures ChannelFifo(s', from, to)
    {
      assert ChannelFifo(s, from, to);
    }
  }

  lemma StepKeepsChannels(s: State, e: Event)
    requires ConnsOk(s) && ChannelsFifo(s) && Enabled(s, e)
    ensures ChannelsFifo(Step(s, e))
  {
    match e {
      case Arrive(id) => ArriveKeepsChannels(s, id);
      case Perform(c) => PerformKeepsChannels(s, c);
      case _ =>
        OtherStepsHandNothing(s, e);
        QuietKeepsChannels(s, Step(s, e));
    }
  }

  // ----- preservation: lanes -----

  /** What the sends `ds` tell `to` about `sid`. */
  function About(ds: seq<Delivery<nat>>, to: nat, sid: SessionId): seq<Msg> {
    Keep(Naming(sid), To(ds, to))
  }

  lemma AboutOne(d: Delivery<nat>, to: nat, sid: SessionId)
    ensures About([d], to, sid) == if d.to == to && Names(d.msg, sid) then [d.msg] else []
  {
    ToSingle(d, to);
    if d.to == to {
      KeepSingle(Naming(sid), d.msg);
    }
  }

  lemma AboutTwo(d: Delivery<nat>, e: Delivery<nat>, to: nat, sid: SessionId)
    ensures About([d, e], to, sid)
         == (if d.to == to && Names(d.msg, sid) then [d.msg] else [])
            + (if e.to == to && Names(e.msg, sid) then [e.msg] else [])
  {
    assert [d, e] == [d] + [e];
    KeepToConcat(Naming(sid), [d], [e], to);
    AboutOne(d, to, sid);
    AboutOne(e, to, sid);
  }

  /** What the thread of `c` decides to send in the step `e`. */
  function NewSends(s: State, e: Event, c: nat): seq<Delivery<nat>>
    requires Enabled(s, e) && c < |s.conns|
  {
    if e.Register? && e.c == c then RegisterStep(s, c).conns[c].outbox
    else if e.Read? && e.c == c then ReadStep(s, c, e.req, e.newSid).conns[c].outbox
    else if e.Leave? && e.c == c then LeaveStep(s, c, e.order).conns[c].outbox
    else []
  }

  lemma OwnPlanStep(s: State, e: Event)
    requires Enabled(s, e) && !e.Arrive? && ConnOk(s, e.c)
    ensures e.c < |Step(s, e).conns| && Plan(Step(s, e).conns[e.c]) == Plan(s.conns[e.c]) + NewSends(s, e, e.c)
  {
    var k, k' := s.conns[e.c], Step(s, e).conns[e.c];
    if e.Register? {
      assert k.performed == [] && k.outbox == [];
    }
    if e.Register? || e.Read? || e.Leave? {
      PlanExtended(k, k', NewSends(s, e, e.c));
    } else {
      assert Plan(k') == Plan(k);
    }
  }

  lemma PlanStep(s: State, e: Event, c: nat)
    requires Enabled(s, e) && c < |s.conns| && c < |s.boxes| && ConnOk(s, c)
    ensures c < |Step(s, e).conns| && Plan(Step(s, e).conns[c]) == Plan(s.conns[c]) + NewSends(s, e, c)
  {
    if !e.Arrive? && e.c == c {
      OwnPlanStep(s, e);
    } else {
      OthersUntouched(s, e, c);
    }
  }

  /** The thread of `c`, and no other, has just decided to make the sends `ds`. */
  predicate Decides(s: State, s': State, c: nat, ds: seq<Delivery<nat>>) {
    && c < |s.conns| == |s'.conns|
    && (forall x :: 0 <= x < |s.conns| && x != c ==> s'.conns[x] == s.conns[x])
    && s'.conns[c].id == s.conns[c].id
    && Plan(s'.conns[c]) == Plan(s.conns[c]) + ds
    && s'.ice == s.ice
  }

  /** The part of a session's story that a step adds. */
  ghost predicate Adds(s: State, s': State, c: nat, ds: seq<Delivery<nat>>, sid: SessionId, from: nat, to: nat)
    requires from < |s.conns| && from < |s'.conns|
  {
    if from == c then Story(s', sid, from, to) == Story(s, sid, from, to) + About(ds, to, sid)
    else Story(s', sid, from, to) == Story(s, sid, from, to)
  }

  lemma DecidesKeepsLanes(s: State, s': State, c: nat, ds: seq<Delivery<nat>>)
    requires LanesTold(s) && Decides(s, s', c, ds)
    requires forall sid, from, to :: 0 <= from < |s.conns| && 0 <= to < |s.conns| ==> Adds(s, s', c, ds, sid, from, to)
    ensures LanesTold(s')
  {
    forall sid, from, to | 0 <= from < |s'.conns| && 0 <= to < |s'.conns|
      ensures Lane(s', sid, from, to) == Story(s', sid, from, to)
    {
      assert Lane(s, sid, from, to) == Story(s, sid, from, to);
      assert Adds(s, s', c, ds, sid, from, to);
      if from == c {
        KeepToConcat(Naming(sid), Plan(s.conns[c]), ds, to);
      }
    }
  }

  /** A session whose record, removal and traffic the step leaves alone keeps its story. */
  lemma StoryFrame(s: State, s': State, sid: SessionId, from: nat, to: nat)
    requires |s.conns| <= |s'.conns| && from < |s.conns| && s'.ice == s.ice
    requires forall x :: 0 <= x < |s.conns| ==> s'.conns[x].id == s.conns[x].id
    requires sid in s.records ==> RecordOk(s, sid)
    requires sid in s.records <==> sid in s'.records
    requires sid in s.records ==> s'.records[sid] == s.records[sid]
    requires sid in s.removed <==> sid in s'.removed
    requires sid in s.removed ==> s'.removed[sid] == s.removed[sid]
    requires Relayed(s'.conns[from].routed, sid) == Relayed(s.conns[from].routed, sid)
    ensures Story(s', sid, from, to) == Story(s, sid, from, to)
  {
    if sid in s.records {
      assert Opening(s', sid, from, to) == Opening(s, sid, from, to);
      assert Closing(s', sid, from, to) == Closing(s, sid, from, to);
    }
  }

  /** Steps that decide nothing new to send and leave the session histories alone. */
  lemma QuietKeepsLanes(s: State, s': State)
    requires TablesOk(s) && LanesTold(s) && |s'.conns| == |s.conns|
    requires s'.ice == s.ice && s'.records == s.records && s'.removed == s.removed
    requires forall c :: 0 <= c < |s.conns| ==>
               && Plan(s'.conns[c]) == Plan(s.conns[c]) && s'.conns[c].routed == s.conns[c].routed
               && s'.conns[c].id == s.conns[c].id
    ensures LanesTold(s')
  {
    forall sid, from, to | 0 <= from < |s'.conns| && 0 <= to < |s'.conns|
      ensures Lane(s', sid, from, to) == Story(s', sid, from, to)
    {
      assert Lane(s, sid, from, to) == Story(s, sid, from, to);
      assert sid in s.records ==> RecordOk(s, sid);
      StoryFrame(s, s', sid, from, to);
    }
  }

  lemma StoryNewcomer(s: State, sid: SessionId, from: nat, to: nat)
    requires from < |s.conns|
    requires sid in s.records ==> !Member(s.records[sid], from) || !Member(s.records[sid], to)
    ensures Story(s, sid, from, to) == []
  {
  }

  /** A newcomer has said and been told nothing about any session. */
  lemma ArriveStory(s: State, id: PeerId, sid: SessionId, from: nat, to: nat)
    requires ConnsOk(s) && (sid in s.records ==> RecordOk(s, sid))
    requires from <= |s.conns| && to <= |s.conns| && (from == |s.conns| || to == |s.conns|)
    ensures var s' := Step(s, Arrive(id)); Lane(s', sid, from, to) == [] == Story(s', sid, from, to)
  {
    var s' := Step(s, Arrive(id));
    StoryNewcomer(s', sid, from, to);
    assert from < |s.conns| ==> ConnOk(s, from);
    ToNobody(Plan(s'.conns[from]), to);
  }

  lemma ArriveKeepsLanes(s: State, id: PeerId)
    requires ConnsOk(s) && TablesOk(s) && LanesTold(s) && Enabled(s, Arrive(id))
    ensures LanesTold(Step(s, Arrive(id)))
  {
    var s' := Step(s, Arrive(id));
    var n := |s.conns|;
    forall sid, from, to | 0 <= from < |s'.conns| && 0 <= to < |s'.conns|
      ensures Lane(s', sid, from, to) == Story(s', sid, from, to)
    {
      assert sid in s.records ==> RecordOk(s, sid);
      if from < n && to < n {
        assert Lane(s, sid, from, to) == Story(s, sid, from, to);
        StoryFrame(s, s', sid, from, to);
      } else {
        ArriveStory(s, id, sid, from, to);
      }
    }
  }

  lemma UnnamedAdds(s: State, s': State, c: nat, d: Delivery<nat>, sid: SessionId, from: nat, to: nat)
    requires TablesOk(s) && Decides(s, s', c, [d]) && from < |s.conns|
    requires s'.records == s.records && s'.removed == s.removed && s'.conns[c].routed == s.conns[c].routed
    requires d.msg.HelloOk? || d.msg.Pong? || d.msg.Err?
    ensures Adds(s, s', c, [d], sid, from, to)
  {
    AboutOne(d, to, sid);
    assert sid in s.records ==> RecordOk(s, sid);
    StoryFrame(s, s', sid, from, to);
  }

  /** Deciding to send a message that names no session changes no lane. */
  lemma UnnamedKeepsLanes(s: State, s': State, c: nat, d: Delivery<nat>)
    requires TablesOk(s) && LanesTold(s) && Decides(s, s', c, [d])
    requires s'.records == s.records && s'.removed == s.removed && s'.conns[c].routed == s.conns[c].routed
    requires d.msg.HelloOk? || d.msg.Pong? || d.msg.Err?
    ensures LanesTold(s')
  {
    forall sid, from, to | 0 <= from < |s.conns| && 0 <= to < |s.conns|
      ensures Adds(s, s', c, [d], sid, from, to)
    {
      UnnamedAdds(s, s', c, d, sid, from, to);
    }
    DecidesKeepsLanes(s, s', c, [d]);
  }

  lemma {:induction false} RelayedUnknown(routed: seq<Request>, sid: SessionId)
    requires forall r <- routed :: (r.Sdp? || r.Ice?) && r.session != sid
    ensures Relayed(routed, sid) == []
  {
    if routed != [] {
      RelayedUnknown(routed[..|routed| - 1], sid);
    }
  }

  lemma RelayedAppend(routed: seq<Request>, r: Request, sid: SessionId)
    requires r.Sdp? || r.Ice?
    ensures Relayed(routed + [r], sid) == Relayed(routed, sid) + (if r.session == sid then [Relay(r)] else [])
  {
    assert (routed + [r])[..|routed|] == routed;
  }

  /** The two acknowledgements open the story of a fresh session. */
  lemma OpenStory(s: State, c: nat, peer: PeerId, newSid: SessionId, from: nat, to: nat)
    requires from < |s.conns| && c < |s.conns| && from < |s.boxes| && ConnOk(s, from)
    requires peer in s.tables.peers && Owns(s, peer) && newSid !in s.records && newSid !in s.removed
    ensures Story(ReadStep(s, c, SessionReq(peer), newSid), newSid, from, to)
         == if from != c then []
            else (if to == c then [Ack(newSid, peer, s.ice, true)] else [])
                 + (if to == s.tables.peers[peer] then [Ack(newSid, s.conns[c].id, s.ice, false)] else [])
  {
    var s' := ReadStep(s, c, SessionReq(peer), newSid);
    assert s'.records[newSid] == Record(c, s.tables.peers[peer]);
    assert s'.removed == s.removed && newSid !in s.removed;
    RelayedUnknown(s.conns[from].routed, newSid);
    assert Relayed(s'.conns[from].routed, newSid) == [];
    assert Closing(s', newSid, from, to) == [];
  }

  function AckPair(s: State, c: nat, peer: PeerId, newSid: SessionId): seq<Delivery<nat>>
    requires c < |s.conns| && peer in s.tables.peers
  {
    [Delivery(c, Ack(newSid, peer, s.ice, true)),
     Delivery(s.tables.peers[peer], Ack(newSid, s.conns[c].id, s.ice, false))]
  }

  lemma OpenAdds(s: State, c: nat, peer: PeerId, newSid: SessionId, sid: SessionId, from: nat, to: nat)
    requires from < |s.conns| && c < |s.conns| && from < |s.boxes| && ConnOk(s, from)
    requires peer in s.tables.peers && Owns(s, peer) && newSid !in s.records && newSid !in s.removed
    requires sid in s.records ==> RecordOk(s, sid)
    ensures Adds(s, ReadStep(s, c, SessionReq(peer), newSid), c, AckPair(s, c, peer, newSid), sid, from, to)
  {
    var s' := ReadStep(s, c, SessionReq(peer), newSid);
    var ds := AckPair(s, c, peer, newSid);
    AboutTwo(ds[0], ds[1], to, sid);
    if sid == newSid {
      OpenStory(s, c, peer, newSid, from, to);
    } else {
      assert s'.conns[from].routed == s.conns[from].routed;
      StoryFrame(s, s', sid, from, to);
    }
  }

  lemma OpenKeepsLanes(s: State, c: nat, peer: PeerId, newSid: SessionId)
    requires ConnsOk(s) && TablesOk(s) && LanesTold(s)
    requires Enabled(s, Read(c, SessionReq(peer), newSid)) && peer in s.tables.peers
    ensures LanesTold(ReadStep(s, c, SessionReq(peer), newSid))
  {
    var s' := ReadStep(s, c, SessionReq(peer), newSid);
    var ds := AckPair(s, c, peer, newSid);
    assert Plan(s'.conns[c]) == Plan(s.conns[c]) + ds;
    forall sid, from, to | 0 <= from < |s.conns| && 0 <= to < |s.conns|
      ensures Adds(s, s', c, ds, sid, from, to)
    {
      assert ConnOk(s, from) && Owns(s, peer);
      assert sid in s.records ==> RecordOk(s, sid);
      OpenAdds(s, c, peer, newSid, sid, from, to);
    }
    DecidesKeepsLanes(s, s', c, ds);
  }

  /** Who `OtherPeer` finds for an enrolled connection: the other end of the record. */
  lemma OtherEnd(s: State, c: nat, sid: SessionId)
    requires TablesOk(s) && c < |s.conns| && Enrolled(s.conns[c].phase) && sid in s.tables.sessions
    ensures sid in s.records && RecordOk(s, sid) && sid !in s.removed
    ensures Involves(s.tables.sessions[sid], s.conns[c].id) <==> Member(s.records[sid], c)
    ensures OtherPeer(s.tables, sid, s.conns[c].id)
         == if s.records[sid].initiator == c then Ok(s.records[sid].target)
            else if s.records[sid].target == c then Ok(s.records[sid].initiator)
            else Fail(NotMember)
  {
    assert RecordOk(s, sid) && Listed(s, c);
    assert Owns(s, s.tables.sessions[sid].initiator) && Owns(s, s.tables.sessions[sid].target);
  }

  /** The end of a session that is not `c`; `c` itself for a session of `c` with itself. */
  function OtherEndOf(r: Record, c: nat): nat {
    if r.initiator == c then r.target else r.initiator
  }

  lemma OtherEndIsCounterpart(r: Record, c: nat, to: nat)
    ensures Counterparts(r, c, to) <==> Member(r, c) && to == OtherEndOf(r, c)
  {
  }

  lemma Regroup(o: seq<Msg>, r: seq<Msg>, x: seq<Msg>)
    ensures o + (r + x) + [] == o + r + [] + x
  {
  }

  /** A routed request extends the story between the two ends by its relayed form. */
  lemma RouteStory(s: State, s': State, c: nat, req: Request, sid: SessionId, from: nat, to: nat)
    requires |s.conns| == |s'.conns| && from < |s.conns| && s'.ice == s.ice
    requires forall x :: 0 <= x < |s.conns| ==> s'.conns[x].id == s.conns[x].id
    requires s'.records == s.records && s'.removed == s.removed
    requires req.Sdp? || req.Ice?
    requires s'.conns[from].routed == if from == c then s.conns[from].routed + [req] else s.conns[from].routed
    requires sid in s.records && RecordOk(s, sid) && sid !in s.removed && req.session == sid
    ensures Story(s', sid, from, to)
         == Story(s, sid, from, to)
            + (if from == c && Counterparts(s.records[sid], from, to) then [Relay(req)] else [])
  {
    var o := Opening(s, sid, from, to);
    assert Opening(s', sid, from, to) == o;
    assert Closing(s', sid, from, to) == [] == Closing(s, sid, from, to);
    if from == c && Counterparts(s.records[sid], from, to) {
      RelayedAppend(s.conns[from].routed, req, sid);
      Regroup(o, Relayed(s.conns[from].routed, sid), [Relay(req)]);
    } else {
      assert Story(s', sid, from, to) == Story(s, sid, from, to);
    }
  }

  lemma RouteAdds(s: State, s': State, c: nat, req: Request, d: Delivery<nat>, sid: SessionId, from: nat, to: nat)
    requires Routes(s, s', c, req, d) && from < |s.conns|
    requires RecordOk(s, req.session)
    requires sid in s.records ==> RecordOk(s, sid)
    ensures Adds(s, s', c, [d], sid, from, to)
  {
    AboutOne(d, to, sid);
    if sid == req.session {
      RouteStory(s, s', c, req, sid, from, to);
    } else {
      RelayedAppend(s.conns[c].routed, req, sid);
      StoryFrame(s, s', sid, from, to);
    }
  }

  /** `req` is routed from `c` to the other end of its live session as the send `d`. */
  predicate Routes(s: State, s': State, c: nat, req: Request, d: Delivery<nat>) {
    && Decides(s, s', c, [d]) && s'.records == s.records && s'.removed == s.removed
    && (req.Sdp? || req.Ice?)
    && s'.conns[c].routed == s.conns[c].routed + [req]
    && req.session in s.records && req.session !in s.removed
    && Counterparts(s.records[req.session], c, d.to) && d.msg == Relay(req)
  }

  /** A frame that finds its counterparty is the one send to it. */
  lemma ForwardIs(s: State, c: nat, req: Request, newSid: SessionId)
    requires c < |s.conns| && (req.Sdp? || req.Ice?)
    requires OtherPeer(s.tables, req.session, s.conns[c].id).Ok?
    ensures var s' := ReadStep(s, c, req, newSid);
            && s'.conns[c].outbox == [Delivery(OtherPeer(s.tables, req.session, s.conns[c].id).value, Relay(req))]
            && s'.conns[c].performed == s.conns[c].performed && s'.conns[c].id == s.conns[c].id
            && s'.conns[c].routed == s.conns[c].routed + [req]
            && s'.records == s.records && s'.removed == s.removed && s'.ice == s.ice && |s'.conns| == |s.conns|
            && (forall x :: 0 <= x < |s.conns| && x != c ==> s'.conns[x] == s.conns[x])
  {
  }

  lemma RouteStepRoutes(s: State, c: nat, req: Request, newSid: SessionId) returns (d: Delivery<nat>)
    requires TablesOk(s) && c < |s.conns| && Enrolled(s.conns[c].phase) && s.conns[c].outbox == []
    requires (req.Sdp? || req.Ice?) && OtherPeer(s.tables, req.session, s.conns[c].id).Ok?
    ensures Routes(s, ReadStep(s, c, req, newSid), c, req, d)
  {
    d := Delivery(OtherPeer(s.tables, req.session, s.conns[c].id).value, Relay(req));
    OtherEnd(s, c, req.session);
    ForwardIs(s, c, req, newSid);
    var k, k' := s.conns[c], ReadStep(s, c, req, newSid).conns[c];
    PlanExtended(k, k', [d]);
  }

  lemma RoutesKeepsLanes(s: State, s': State, c: nat, req: Request, d: Delivery<nat>)
    requires TablesOk(s) && LanesTold(s) && Routes(s, s', c, req, d)
    ensures LanesTold(s')
  {
    assert RecordOk(s, req.session);
    forall sid, from, to | 0 <= from < |s.conns| && 0 <= to < |s.conns|
      ensures Adds(s, s', c, [d], sid, from, to)
    {
      assert sid in s.records ==> RecordOk(s, sid);
      RouteAdds(s, s', c, req, d, sid, from, to);
    }
    DecidesKeepsLanes(s, s', c, [d]);
  }

  lemma RouteKeepsLanes(s: State, c: nat, req: Request, newSid: SessionId)
    requires TablesOk(s) && LanesTold(s)
    requires Enabled(s, Read(c, req, newSid)) && (req.Sdp? || req.Ice?)
    requires OtherPeer(s.tables, req.session, s.conns[c].id).Ok?
    ensures LanesTold(ReadStep(s, c, req, newSid))
  {
    var d := RouteStepRoutes(s, c, req, newSid);
    RoutesKeepsLanes(s, ReadStep(s, c, req, newSid), c, req, d);
  }

  /** Removing a live session adds exactly the closing part to its story. */
  lemma CloseStory(s: State, s': State, sid: SessionId, from: nat, to: nat)
    requires |s.conns| == |s'.conns| && from < |s.conns| && s'.ice == s.ice
    requires forall x :: 0 <= x < |s.conns| ==> s'.conns[x].id == s.conns[x].id && s'.conns[x].routed == s.conns[x].routed
    requires sid in s.records && RecordOk(s, sid) && s'.records == s.records && sid !in s.removed
    ensures Story(s', sid, from, to) == Story(s, sid, from, to) + Closing(s', sid, from, to)
  {
    assert Opening(s', sid, from, to) == Opening(s, sid, from, to);
    assert Closing(s, sid, from, to) == [];
  }

  /** Taking `session` out of the live ones, when `ds` says what its ends are told. */
  lemma RemovalAdds(s: State, s': State, c: nat, ds: seq<Delivery<nat>>, sid: SessionId, from: nat, to: nat)
    requires Decides(s, s', c, ds) && s'.records == s.records && from < |s.conns|
    requires s'.conns[c].routed == s.conns[c].routed
    requires sid in s.records ==> RecordOk(s, sid)
    requires sid in s.removed ==> sid in s'.removed && s'.removed[sid] == s.removed[sid]
    requires sid in s'.removed && sid !in s.removed ==>
               sid in s.records && s'.removed[sid].remover == c && About(ds, to, sid) == Closing(s', sid, c, to)
    requires (sid in s'.removed <==> sid in s.removed) ==> About(ds, to, sid) == []
    ensures Adds(s, s', c, ds, sid, from, to)
  {
    if sid in s'.removed && sid !in s.removed {
      CloseStory(s, s', sid, from, to);
      assert from != c ==> Closing(s', sid, from, to) == [];
    } else {
      StoryFrame(s, s', sid, from, to);
    }
  }

  lemma CloseNoticeIs(s: State, c: nat, session: SessionId, reason: string)
    requires TablesOk(s) && c < |s.conns| && Enrolled(s.conns[c].phase) && session in s.tables.sessions
    ensures session in s.records
    ensures CloseNotice(s.tables, session, s.conns[c].id, reason)
         == if Member(s.records[session], c) then [Delivery(OtherEndOf(s.records[session], c), PeerGone(session, reason))]
            else []
  {
    OtherEnd(s, c, session);
  }

  /** What one notice about `session` says about `sid`. */
  lemma AboutNotice(d: Delivery<nat>, session: SessionId, to: nat, sid: SessionId)
    requires d.msg.PeerGone? && d.msg.session == session
    ensures About([d], to, sid) == if sid == session && d.to == to then [d.msg] else []
  {
    AboutOne(d, to, sid);
  }

  lemma ByeClosing(s': State, c: nat, session: SessionId, reason: string, to: nat)
    requires session in s'.records && session in s'.removed && s'.removed[session] == ByBye(c, reason)
    ensures Closing(s', session, c, to)
         == if Member(s'.records[session], c) && to == OtherEndOf(s'.records[session], c) then [PeerGone(session, reason)]
            else []
  {
    OtherEndIsCounterpart(s'.records[session], c, to);
  }

  lemma ByeAbout(s: State, s': State, c: nat, session: SessionId, reason: string, to: nat, sid: SessionId)
    requires TablesOk(s) && c < |s.conns| && Enrolled(s.conns[c].phase) && session in s.tables.sessions
    requires s'.records == s.records && s'.removed == s.removed[session := ByBye(c, reason)]
    ensures session in s.records
    ensures About(CloseNotice(s.tables, session, s.conns[c].id, reason), to, sid)
         == if sid == session then Closing(s', sid, c, to) else []
  {
    CloseNoticeIs(s, c, session, reason);
    ByeClosing(s', c, session, reason, to);
    var r := s.records[session];
    if Member(r, c) {
      AboutNotice(Delivery(OtherEndOf(r, c), PeerGone(session, reason)), session, to, sid);
    }
  }

  lemma ByeDecides(s: State, c: nat, session: SessionId, reason: string, newSid: SessionId)
    requires Enabled(s, Read(c, Bye(session, reason), newSid)) && session in s.tables.sessions
    ensures var s' := ReadStep(s, c, Bye(session, reason), newSid);
            && Decides(s, s', c, CloseNotice(s.tables, session, s.conns[c].id, reason))
            && s'.records == s.records && s'.removed == s.removed[session := ByBye(c, reason)]
            && s'.conns[c].routed == s.conns[c].routed
  {
    var s' := ReadStep(s, c, Bye(session, reason), newSid);
    assert Plan(s'.conns[c]) == Plan(s.conns[c]) + CloseNotice(s.tables, session, s.conns[c].id, reason);
  }

  lemma ByeKeepsLanes(s: State, c: nat, session: SessionId, reason: string, newSid: SessionId)
    requires TablesOk(s) && LanesTold(s)
    requires Enabled(s, Read(c, Bye(session, reason), newSid)) && session in s.tables.sessions
    ensures LanesTold(ReadStep(s, c, Bye(session, reason), newSid))
  {
    ByeDecides(s, c, session, reason, newSid);
    RemovalKeepsLanes(s, ReadStep(s, c, Bye(session, reason), newSid), c, session, reason);
  }

  lemma RemovalKeepsLanes(s: State, s': State, c: nat, session: SessionId, reason: string)
    requires TablesOk(s) && LanesTold(s) && c < |s.conns| && Enrolled(s.conns[c].phase) && session in s.tables.sessions
    requires Decides(s, s', c, CloseNotice(s.tables, session, s.conns[c].id, reason))
    requires s'.records == s.records && s'.removed == s.removed[session := ByBye(c, reason)]
    requires s'.conns[c].routed == s.conns[c].routed
    ensures LanesTold(s')
  {
    var ds := CloseNotice(s.tables, session, s.conns[c].id, reason);
    assert RecordOk(s, session);
    forall sid, from, to | 0 <= from < |s.conns| && 0 <= to < |s.conns|
      ensures Adds(s, s', c, ds, sid, from, to)
    {
      assert sid in s.records ==> RecordOk(s, sid);
      ByeAbout(s, s', c, session, reason, to, sid);
      RemovalAdds(s, s', c, ds, sid, from, to);
    }
    DecidesKeepsLanes(s, s', c, ds);
  }

  lemma NoticeForIs(s: State, c: nat, sid: SessionId)
    requires TablesOk(s) && c < |s.conns| && Enrolled(s.conns[c].phase)
    requires sid in s.tables.sessions && Involves(s.tables.sessions[sid], s.conns[c].id)
    ensures sid in s.records && Member(s.records[sid], c)
    ensures NoticeFor(sid, s.tables, s.conns[c].id)
         == if OtherEndOf(s.records[sid], c) == c then []
            else [Delivery(OtherEndOf(s.records[sid], c), PeerGone(sid, DISCONNECTED))]
  {
    OtherEnd(s, c, sid);
    SelfOrOther(s, c, sid);
    assert Listed(s, c);
  }

  lemma DisconnectClosing(s': State, c: nat, sid: SessionId, to: nat)
    requires sid in s'.records && sid in s'.removed && s'.removed[sid] == ByDisconnect(c) && Member(s'.records[sid], c)
    ensures Closing(s', sid, c, to)
         == if to == OtherEndOf(s'.records[sid], c) && to != c then [PeerGone(sid, DISCONNECTED)] else []
  {
    OtherEndIsCounterpart(s'.records[sid], c, to);
  }

  lemma LeaveRecords(s: State, c: nat, order: seq<SessionId>, sid: SessionId)
    requires c < |s.conns| && sid in s.tables.sessions && Involves(s.tables.sessions[sid], s.conns[c].id)
    ensures var s' := LeaveStep(s, c, order);
            s'.records == s.records && sid in s'.removed && s'.removed[sid] == ByDisconnect(c)
  {
  }

  /** The notice `Unregister` owes is the closing part of the session's story. */
  lemma NoticeIsClosing(s: State, c: nat, order: seq<SessionId>, sid: SessionId, to: nat)
    requires TablesOk(s) && c < |s.conns| && Enrolled(s.conns[c].phase)
    requires sid in s.tables.sessions && sid in s.records && Involves(s.tables.sessions[sid], s.conns[c].id)
    ensures To(NoticeFor(sid, s.tables, s.conns[c].id), to) == Closing(LeaveStep(s, c, order), sid, c, to)
  {
    NoticeForIs(s, c, sid);
    LeaveRecords(s, c, order, sid);
    DisconnectClosing(LeaveStep(s, c, order), c, sid, to);
    if OtherEndOf(s.records[sid], c) != c {
      ToSingle(Delivery<nat>.Delivery(OtherEndOf(s.records[sid], c), PeerGone(sid, DISCONNECTED)), to);
    }
  }

  lemma SelfOrOther(s: State, c: nat, sid: SessionId)
    requires TablesOk(s) && c < |s.conns| && Enrolled(s.conns[c].phase)
    requires sid in s.tables.sessions && sid in s.records && Member(s.records[sid], c)
    ensures Other(s.tables.sessions[sid], s.conns[c].id) == s.conns[c].id
       <==> s.records[sid].initiator == s.records[sid].target
  {
    OtherEnd(s, c, sid);
    assert Listed(s, c);
    assert Owns(s, s.tables.sessions[sid].initiator) && Owns(s, s.tables.sessions[sid].target);
  }

  lemma LeaveKeepsLanes(s: State, c: nat, order: seq<SessionId>)
    requires ConnsOk(s) && TablesOk(s) && LanesTold(s) && Enabled(s, Leave(c, order))
    ensures LanesTold(LeaveStep(s, c, order))
  {
    var s' := LeaveStep(s, c, order);
    var ds := Notices(order, s.tables, s.conns[c].id);
    assert ConnOk(s, c);
    assert s.conns[c].performed == Plan(s.conns[c]);
    assert Plan(s'.conns[c]) == Plan(s.conns[c]) + ds;
    assert Decides(s, s', c, ds);
    forall sid, from, to | 0 <= from < |s.conns| && 0 <= to < |s.conns|
      ensures Adds(s, s', c, ds, sid, from, to)
    {
      assert sid in s.records ==> RecordOk(s, sid);
      LeaveAbout(s, c, order, to, sid);
      RemovalAdds(s, s', c, ds, sid, from, to);
    }
    DecidesKeepsLanes(s, s', c, ds);
  }

  lemma LeaveAbout(s: State, c: nat, order: seq<SessionId>, to: nat, sid: SessionId)
    requires TablesOk(s) && c < |s.conns| && Enrolled(s.conns[c].phase)
    requires Enumerates(order, s.tables.sessions.Keys)
    ensures About(Notices(order, s.tables, s.conns[c].id), to, sid)
         == if sid in s.tables.sessions && Involves(s.tables.sessions[sid], s.conns[c].id) && sid in s.records
            then Closing(LeaveStep(s, c, order), sid, c, to) else []
  {
    NoticesAbout(order, s.tables, s.conns[c].id, to, sid);
    assert sid in order <==> sid in s.tables.sessions.Keys;
    if sid in s.tables.sessions && Involves(s.tables.sessions[sid], s.conns[c].id) && sid in s.records {
      NoticeIsClosing(s, c, order, sid, to);
    }
  }

  lemma ReadKeepsLanes(s: State, c: nat, req: Request, newSid: SessionId)
    requires ConnsOk(s) && TablesOk(s) && LanesTold(s) && Enabled(s, Read(c, req, newSid))
    ensures LanesTold(ReadStep(s, c, req, newSid))
  {
    var s' := ReadStep(s, c, req, newSid);
    var ds := s'.conns[c].outbox;
    assert Plan(s'.conns[c]) == Plan(s.conns[c]) + ds;
    if req.SessionReq? && req.peer in s.tables.peers {
      OpenKeepsLanes(s, c, req.peer, newSid);
    } else if (req.Sdp? || req.Ice?) && OtherPeer(s.tables, req.session, s.conns[c].id).Ok? {
      RouteKeepsLanes(s, c, req, newSid);
    } else if req.Bye? && req.session in s.tables.sessions {
      ByeKeepsLanes(s, c, req.session, req.reason, newSid);
    } else if req.Bye? {
      QuietKeepsLanes(s, s');
    } else {
      UnnamedKeepsLanes(s, s', c, ds[0]);
    }
  }

  lemma RegisterKeepsLanes(s: State, c: nat)
    requires ConnsOk(s) && TablesOk(s) && LanesTold(s) && Enabled(s, Register(c))
    ensures LanesTold(RegisterStep(s, c))
  {
    assert ConnOk(s, c);
    if s.conns[c].id in s.tables.peers {
      QuietKeepsLanes(s, RegisterStep(s, c));
    } else {
      UnnamedKeepsLanes(s, RegisterStep(s, c), c, Delivery(c, HelloOk(s.conns[c].id)));
    }
  }

  lemma PerformKeepsLanes(s: State, c: nat)
    requires TablesOk(s) && LanesTold(s) && Enabled(s, Perform(c))
    ensures LanesTold(PerformStep(s, c))
  {
    assert Plan(PerformStep(s, c).conns[c]) == Plan(s.conns[c]);
    QuietKeepsLanes(s, PerformStep(s, c));
  }

  lemma StepKeepsLanes(s: State, e: Event)
    requires ConnsOk(s) && TablesOk(s) && LanesTold(s) && Enabled(s, e)
    ensures LanesTold(Step(s, e))
  {
    var s' := Step(s, e);
    match e {
      case Arrive(id) => ArriveKeepsLanes(s, id);
      case Register(c) => RegisterKeepsLanes(s, c);
      case Read(c, req, newSid) => ReadKeepsLanes(s, c, req, newSid);
      case Leave(c, order) => LeaveKeepsLanes(s, c, order);
      case Perform(c) => PerformKeepsLanes(s, c);
      case _ => QuietKeepsLanes(s, s');
    }
  }

  // ----- every reachable state -----

  lemma StepKeepsInv(s: State, e: Event)
    requires Inv(s) && Enabled(s, e)
    ensures Inv(Step(s, e))
  {
    StepKeepsConns(s, e);
    StepKeepsTables(s, e);
    StepKeepsLanes(s, e);
    StepKeepsChannels(s, e);
    StepKeepsBoxes(s, e);
  }

  /** The invariant holds in every state of every interleaving. */
  lemma {:induction false} ReachableInv(ss: seq<State>, es: seq<Event>, n: nat)
    requires IsRun(ss, es) && n < |ss|
    ensures Inv(ss[n])
  {
    if n > 0 {
      ReachableInv(ss, es, n - 1);
      assert Enabled(ss[n - 1], es[n - 1]);
      StepKeepsInv(ss[n - 1], es[n - 1]);
    }
  }
}
