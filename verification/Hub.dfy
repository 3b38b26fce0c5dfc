/**
 * The hub and its peers as the objects they are: tables and queues updated in place. Every method
 * is tied to the function that the interleaving model uses for the same step, the locked part by
 * `Tables()` and the sends that follow it by `Outbound()` of each receiver.
 */
module HubObjects {
  import opened Messages
  import opened HubTables
  import opened Mailbox

  /**
   * One turn of the write loop as seen from outside: another thread's `Send` slips in, or a case
   * of the `select` is taken. `during` is what other threads hand over during the socket write.
   */
  datatype Tick =
    | Handed(msg: Msg)
    | Queued(during: seq<Msg>, ok: bool)
    | Ticker(ok: bool)
    | ContextDone
    | PeerClosed

  function AfterTick(b: Box<Msg>, t: Tick): Box<Msg> {
    if !b.writer.Selecting? then b
    else match t
      case Handed(m) => Send(b, m)
      case Queued(during, ok) =>
        if b.queue == [] then b
        else
          var w := SendAll(TakeTurn(b, Take), during);
          if !w.writer.Writing? then w else TakeTurn(w, if ok then WriteOk else WriteFail)
      case Ticker(ok) => TakeTurn(b, if ok then PingOk else PingFail)
      case ContextDone => TakeTurn(b, Quit(true))
      case PeerClosed => if b.closed then TakeTurn(b, Quit(false)) else b
  }

  function AfterTicks(b: Box<Msg>, ticks: seq<Tick>): Box<Msg> {
    if ticks == [] then b else AfterTick(AfterTicks(b, ticks[..|ticks| - 1]), ticks[|ticks| - 1])
  }

  /**
   * What one turn does to the peer, case by case: only a write failure or a ping failure closes it,
   * those two, the end of the context and the close stop the loop, and the oldest queued message
   * is the one that goes onto the wire.
   */
  lemma TickExact(b: Box<Msg>, t: Tick)
    requires b.writer.Selecting?
    ensures var b' := AfterTick(b, t);
            match t
            case Handed(m) => b' == Send(b, m) && b'.sent == b.sent + [m]
            case Queued(during, ok) =>
              if b.queue == [] then b' == b
              else
                && b'.sent == b.sent + during
                && b'.written == b.written + (if ok then [b.queue[0]] else [])
                && (ok <==> b'.writer.Selecting?) && (!ok <==> b'.writer.Stopped?) && (!ok ==> b'.closed)
            case Ticker(ok) => if ok then b' == b else b'.closed && b' == b.(closed := true, mark := b'.mark, writer := Stopped)
            case ContextDone => b' == b.(writer := Stopped)
            case PeerClosed => b' == if b.closed then b.(writer := Stopped) else b
  {
    if t.Queued? && b.queue != [] {
      SendAllWriter(TakeTurn(b, Take), t.during);
      SendAllHistories(TakeTurn(b, Take), t.during);
    }
  }

  lemma {:induction false} SendAllHistories(b: Box<Msg>, ms: seq<Msg>)
    ensures SendAll(b, ms).sent == b.sent + ms && SendAll(b, ms).written == b.written
  {
    if ms != [] {
      SendAllHistories(b, ms[..|ms| - 1]);
    }
  }

  /** The reply to a frame that concerns no session. */
  function Answer(req: Request): Msg
    requires !req.SessionReq? && !req.Sdp? && !req.Ice? && !req.Bye?
  {
    match req
    case Ping => Pong
    case Hello => Err(DispatchCode, HelloAgain)
    case Unknown(kind) => Err(DispatchCode, KindUnknown(kind))
    case Malformed(text) => Err(DispatchCode, DecoderSays(text))
    case BadJson(text) => Err(BadJsonCode, DecoderSays(text))
  }

  lemma {:induction false} SendAllWriter(b: Box<Msg>, ms: seq<Msg>)
    ensures SendAll(b, ms).writer == b.writer
    ensures Sound(b) ==> Sound(SendAll(b, ms))
  {
    if ms != [] {
      SendAllWriter(b, ms[..|ms| - 1]);
      if Sound(b) {
        SendKeepsSound(SendAll(b, ms[..|ms| - 1]), ms[|ms| - 1]);
      }
    }
  }

  /** Whatever the write loop meets, its peer's histories stay sound. */
  lemma {:induction false} TicksKeepSound(b: Box<Msg>, ticks: seq<Tick>)
    requires Sound(b)
    ensures Sound(AfterTicks(b, ticks))
  {
    if ticks != [] {
      var c, t := AfterTicks(b, ticks[..|ticks| - 1]), ticks[|ticks| - 1];
      TicksKeepSound(b, ticks[..|ticks| - 1]);
      if c.writer.Selecting? {
        match t {
          case Handed(m) => SendKeepsSound(c, m);
          case Queued(during, ok) =>
            if c.queue != [] {
              TurnKeepsSound(c, Take);
              SendAllWriter(TakeTurn(c, Take), during);
              TurnKeepsSound(SendAll(TakeTurn(c, Take), during), if ok then WriteOk else WriteFail);
            }
          case Ticker(ok) => TurnKeepsSound(c, if ok then PingOk else PingFail);
          case ContextDone => TurnKeepsSound(c, Quit(true));
          case PeerClosed =>
            if c.closed {
              TurnKeepsSound(c, Quit(false));
            }
        }
      }
    }
  }

  lemma {:induction false} OverOnceStopped(b: Box<Msg>, ticks: seq<Tick>, n: nat)
    requires n <= |ticks| && !AfterTicks(b, ticks[..n]).writer.Selecting?
    ensures AfterTicks(b, ticks) == AfterTicks(b, ticks[..n])
    decreases |ticks|
  {
    if n == |ticks| {
      assert ticks[..n] == ticks;
    } else {
      var k := |ticks| - 1;
      assert ticks[..k][..n] == ticks[..n];
      OverOnceStopped(b, ticks[..k], n);
    }
  }

  lemma SendAllAppend(b: Box<Msg>, ms: seq<Msg>, m: Msg)
    ensures SendAll(b, ms + [m]) == Send(SendAll(b, ms), m)
  {
    assert (ms + [m])[..|ms|] == ms;
  }

  class Peer {
    const id: PeerId
    const role: string
    var queue: seq<Msg>
    var closed: bool
    ghost var writer: Writer<Msg>
    ghost var sent: seq<Msg>
    ghost var written: seq<Msg>
    ghost var mark: nat

    ghost function Outbound(): Box<Msg>
      reads this
    {
      Box(queue, closed, writer, sent, written, mark)
    }

    constructor (id: PeerId, role: string)
      ensures this.id == id && this.role == role && Outbound() == NewBox()
    {
      this.id, this.role := id, role;
      queue, closed, writer, sent, written, mark := [], false, Idle, [], [], 0;
    }

    method Send(msg: Msg)
      modifies this
      ensures Outbound() == Mailbox.Send(old(Outbound()), msg)
    {
      if |queue| < QUEUE_SIZE {
        queue := queue + [msg];
      } else {
        Close();
      }
      sent := sent + [msg];
    }

    method Close()
      modifies this
      ensures Outbound() == Mailbox.Close(old(Outbound()))
    {
      if !closed {
        closed := true;
        mark := |sent|;
      }
    }

    /** The write loop over a finite stretch of its run, `ticks` saying what it meets. */
    method WriteLoop(ticks: seq<Tick>)
      requires writer.Selecting?
      modifies this
      ensures Outbound() == AfterTicks(old(Outbound()), ticks)
    {
      var i := 0;
      assert ticks[..0] == [];
      while i < |ticks|
        invariant 0 <= i <= |ticks|
        invariant writer.Selecting?
        invariant Outbound() == AfterTicks(old(Outbound()), ticks[..i])
      {
        assert ticks[..i + 1][..i] == ticks[..i];
        match ticks[i] {
          case ContextDone =>
            writer := Stopped;
            OverOnceStopped(old(Outbound()), ticks, i + 1);
            return;
          case PeerClosed =>
            if closed {
              writer := Stopped;
              OverOnceStopped(old(Outbound()), ticks, i + 1);
              return;
            }
          case Handed(m) =>
            Send(m);
          case Queued(during, ok) =>
            if queue != [] {
              WriteNext(during, ok);
              if !ok {
                OverOnceStopped(old(Outbound()), ticks, i + 1);
                return;
              }
            }
          case Ticker(ok) =>
            if !ok {
              Close();
              writer := Stopped;
              OverOnceStopped(old(Outbound()), ticks, i + 1);
              return;
            }
        }
        i := i + 1;
      }
      assert ticks[..i] == ticks;
    }

    /** Takes the next queued message through the socket write. */
    method WriteNext(during: seq<Msg>, ok: bool)
      requires writer.Selecting? && queue != []
      modifies this
      ensures Outbound() == AfterTick(old(Outbound()), Queued(during, ok))
      ensures if ok then writer.Selecting? else writer.Stopped?
    {
      var msg := queue[0];
      SendAllWriter(TakeTurn(Outbound(), Take), during);
      queue, writer := queue[1..], Writing(msg);
      Receive(during);
      if ok {
        written, writer := written + [msg], Selecting;
      } else {
        Close();
        writer := Stopped;
      }
    }

    /** What other threads hand over while this peer's write loop is inside the socket write. */
    method Receive(ms: seq<Msg>)
      modifies this
      ensures Outbound() == SendAll(old(Outbound()), ms)
    {
      assert ms[..0] == [];
      for i := 0 to |ms|
        invariant Outbound() == SendAll(old(Outbound()), ms[..i])
      {
        assert ms[..i + 1] == ms[..i] + [ms[i]];
        SendAllAppend(old(Outbound()), ms[..i], ms[i]);
        Send(ms[i]);
      }
      assert ms[..|ms|] == ms;
    }

    /** A `session.req` frame: the locked step, then one acknowledgement to each side. */
    method RequestSession(hub: Hub, peer: PeerId, newSid: SessionId)
      modifies hub, this, hub.peers.Values
      ensures var v := Dispatch(old(hub.Tables()), this, id, SessionReq(peer), newSid, hub.iceServers);
              && hub.Tables() == v.tables
              && forall p :: p in old(hub.peers.Values) + {this} ==>
                   p.Outbound() == SendAll(old(p.Outbound()), To(v.sends, p))
    {
      ghost var v := Dispatch(old(hub.Tables()), this, id, SessionReq(peer), newSid, hub.iceServers);
      ghost var world := hub.peers.Values + {this};
      var opening := hub.OpenSession(id, peer, newSid);
      match opening {
        case Fail(e) =>
          Send(Err(DispatchCode, HubSays(e)));
          forall p | p in world
            ensures p.Outbound() == SendAll(old(p.Outbound()), To(v.sends, p))
          {
            FewSends(old(p.Outbound()), v.sends, p);
          }
        case Ok((sid, target)) =>
          Send(Ack(sid, peer, hub.iceServers, true));
          target.Send(Ack(sid, id, hub.iceServers, false));
          forall p | p in world
            ensures p.Outbound() == SendAll(old(p.Outbound()), To(v.sends, p))
          {
            TwoSends(old(p.Outbound()), v.sends[0], v.sends[1], p);
            assert v.sends == [v.sends[0], v.sends[1]];
          }
      }
    }

    /** An `sdp` or `ice` frame: find the counterparty under the lock, then hand it the message. */
    method RouteFrame(hub: Hub, req: Request)
      requires req.Sdp? || req.Ice?
      modifies this, hub.peers.Values
      ensures forall p :: p in hub.peers.Values + {this} ==>
                p.Outbound() == SendAll(old(p.Outbound()), To(Forward(hub.Tables(), this, id, req.session, req).sends, p))
    {
      var other := hub.OtherPeer(req.session, id);
      ghost var d := ForwardedTo(hub, req, other);
      match other {
        case Fail(e) => Send(Err(DispatchCode, HubSays(e)));
        case Ok(p) =>
          match req {
            case Sdp(session, role, sdp) => p.Send(PeerSdp(session, role, sdp));
            case Ice(session, cand) => p.Send(PeerIce(session, cand));
          }
      }
      assert d.to.Outbound() == Mailbox.Send(old(d.to.Outbound()), d.msg);
      forall p | p in hub.peers.Values + {this}
        ensures p.Outbound() == SendAll(old(p.Outbound()), To([d], p))
      {
        OneSend(old(p.Outbound()), d, p);
      }
    }

    /** The one send that follows the lookup of the counterparty. */
    ghost function ForwardedTo(hub: Hub, req: Request, other: Result<Peer>): (d: Delivery<Peer>)
      requires req.Sdp? || req.Ice?
      reads hub
      requires other == HubTables.OtherPeer(hub.Tables(), req.session, id)
      ensures Forward(hub.Tables(), this, id, req.session, req).sends == [d]
      ensures d.to in hub.peers.Values + {this}
    {
      match other
      case Ok(p) => Delivery(p, Relay(req))
      case Fail(e) => Delivery(this, Err(DispatchCode, HubSays(e)))
    }

    /** The frames that concern no session: one reply to this peer alone. */
    method AnswerFrame(req: Request)
      requires !req.SessionReq? && !req.Sdp? && !req.Ice? && !req.Bye?
      modifies this
      ensures Outbound() == Mailbox.Send(old(Outbound()), Answer(req))
    {
      match req {
        case Ping => Send(Pong);
        case Hello => Send(Err(DispatchCode, HelloAgain));
        case Unknown(kind) => Send(Err(DispatchCode, KindUnknown(kind)));
        case Malformed(text) => Send(Err(DispatchCode, DecoderSays(text)));
        case BadJson(text) => Send(Err(BadJsonCode, DecoderSays(text)));
      }
    }

    /** A `bye` frame. */
    method ByeFrame(hub: Hub, session: SessionId, reason: string)
      modifies hub, hub.peers.Values
      ensures hub.Tables() == Closed(old(hub.Tables()), session)
      ensures forall p :: p in old(hub.peers.Values) + {this} ==>
                p.Outbound() == SendAll(old(p.Outbound()), To(CloseNotice(old(hub.Tables()), session, id, reason), p))
    {
      ghost var notice := CloseNotice(hub.Tables(), session, id, reason);
      NoticeToListed(hub.Tables(), session, id, reason);
      FewSends(Outbound(), notice, this);
      hub.CloseSession(session, id, reason);
    }

    /**
     * One frame through the read loop's body, `newSid` being the id generated if a session is
     * opened. The hub's tables change as `Dispatch` says, and every peer, this one included, is
     * handed what `Dispatch` addresses to it, in that order, and nothing else.
     */
    method HandleFrame(hub: Hub, req: Request, newSid: SessionId)
      modifies hub, this, hub.peers.Values
      ensures var v := Dispatch(old(hub.Tables()), this, id, req, newSid, hub.iceServers);
              && hub.Tables() == v.tables
              && forall p :: p in old(hub.peers.Values) + {this} ==>
                   p.Outbound() == SendAll(old(p.Outbound()), To(v.sends, p))
    {
      match req {
        case SessionReq(peer) => RequestSession(hub, peer, newSid);
        case Sdp(_, _, _) => RouteFrame(hub, req);
        case Ice(_, _) => RouteFrame(hub, req);
        case Bye(session, reason) => ByeFrame(hub, session, reason);
        case _ =>
          ghost var d := Delivery(this, Answer(req));
          assert Dispatch(hub.Tables(), this, id, req, newSid, hub.iceServers) == Verdict(hub.Tables(), [d]);
          ghost var world := hub.peers.Values + {this};
          AnswerFrame(req);
          forall p | p in world
            ensures p.Outbound() == SendAll(old(p.Outbound()), To([d], p))
          {
            OneSend(old(p.Outbound()), d, p);
          }
      }
    }

    /**
     * Admission of a connection whose hello was accepted: a taken id leaves everything as it is,
     * otherwise the peer is listed and then greeted. `admitted` says whether `run` follows.
     */
    method Admit(hub: Hub) returns (admitted: bool)
      modifies hub, this
      ensures admitted <==> id !in old(hub.peers)
      ensures hub.Tables() == if admitted then Registered(old(hub.Tables()), id, this) else old(hub.Tables())
      ensures Outbound() == if admitted then Mailbox.Send(old(Outbound()), HelloOk(id)) else old(Outbound())
    {
      var registering := hub.Register(this);
      admitted := registering.Ok?;
      if admitted {
        Send(HelloOk(id));
      }
    }
  }

  /** The effect of one send on the receiver's box, and on everybody else's. */
  lemma OneSend(b: Box<Msg>, d: Delivery<Peer>, p: Peer)
    ensures SendAll(b, To([d], p)) == if d.to == p then Send(b, d.msg) else b
  {
    ToSingle(d, p);
    assert [d.msg][..0] == [];
  }

  lemma TwoSends(b: Box<Msg>, d: Delivery<Peer>, e: Delivery<Peer>, p: Peer)
    ensures SendAll(b, To([d, e], p))
         == var b' := if d.to == p then Send(b, d.msg) else b; if e.to == p then Send(b', e.msg) else b'
  {
    OneSend(b, d, p);
    assert [d, e] == [d] + [e];
    ToAppend([d], e, p);
    if e.to == p {
      SendAllAppend(b, To([d], p), e.msg);
    }
  }

  lemma NoticeToListed<C>(t: Tables<C>, session: SessionId, closer: PeerId, reason: string)
    ensures forall d <- CloseNotice(t, session, closer, reason) :: d.to in t.peers.Values
  {
  }

  /** At most one send. */
  lemma FewSends(b: Box<Msg>, ds: seq<Delivery<Peer>>, p: Peer)
    requires |ds| <= 1
    ensures SendAll(b, To(ds, p)) == if ds != [] && ds[0].to == p then Send(b, ds[0].msg) else b
  {
    if ds != [] {
      assert ds == [ds[0]];
      OneSend(b, ds[0], p);
    }
  }

  lemma NoticesAppend<C>(order: seq<SessionId>, sid: SessionId, t: Tables<C>, id: PeerId)
    ensures Notices(order + [sid], t, id) == Notices(order, t, id) + NoticeFor(sid, t, id)
  {
    assert (order + [sid])[..|order|] == order;
  }

  /** The range loop of `Unregister` has visited `order` and has `pending` left. */
  ghost predicate Visited(order: seq<SessionId>, pending: set<SessionId>, keys: set<SessionId>) {
    pending <= keys && (set x | x in order) == keys - pending && Distinct(order)
  }

  lemma Visit(order: seq<SessionId>, pending: set<SessionId>, keys: set<SessionId>, sid: SessionId)
    requires Visited(order, pending, keys) && sid in pending
    ensures Visited(order + [sid], pending - {sid}, keys)
  {
    assert sid !in (set x | x in order);
    assert (set x | x in order + [sid]) == (set x | x in order) + {sid};
    assert keys - (pending - {sid}) == (keys - pending) + {sid};
  }

  /** What the loop has left in the table: everything pending, and what does not involve `id`. */
  ghost predicate Pruned(now: map<SessionId, Session>, pending: set<SessionId>, was: map<SessionId, Session>, id: PeerId) {
    && (forall sid :: sid in now <==> sid in was && (sid in pending || !Involves(was[sid], id)))
    && (forall sid :: sid in now ==> now[sid] == was[sid])
  }

  lemma PruneOne(
      now: map<SessionId, Session>, pending: set<SessionId>, was: map<SessionId, Session>, id: PeerId, sid: SessionId)
    requires Pruned(now, pending, was, id) && sid in pending && sid in was
    ensures sid in now
    ensures Pruned(if Involves(now[sid], id) then now - {sid} else now, pending - {sid}, was, id)
  {
  }

  /** A session still pending yields the notice it would have yielded at the start. */
  lemma NoticePending<C>(sid: SessionId, now: Tables<C>, was: Tables<C>, id: PeerId)
    requires sid in now.sessions && sid in was.sessions && now.sessions[sid] == was.sessions[sid]
    requires now.peers == was.peers - {id}
    ensures NoticeFor(sid, now, id) == NoticeFor(sid, was, id)
  {
  }

  /** Where the range loop stands once it has visited `order`. */
  ghost predicate Midway<C>(
      order: seq<SessionId>, pending: set<SessionId>, notify: seq<Delivery<C>>, now: Tables<C>, was: Tables<C>, id: PeerId)
  {
    && Visited(order, pending, was.sessions.Keys)
    && now.peers == was.peers - {id}
    && Pruned(now.sessions, pending, was.sessions, id)
    && notify == Notices(order, was, id)
    && (forall sid :: sid in pending ==> sid in now.sessions)
  }

  lemma MidwayStep<C>(
      order: seq<SessionId>, pending: set<SessionId>, notify: seq<Delivery<C>>, now: Tables<C>, was: Tables<C>, id: PeerId,
      sid: SessionId)
    requires Midway(order, pending, notify, now, was, id) && sid in pending
    ensures sid in now.sessions
    ensures Midway(order + [sid], pending - {sid}, notify + NoticeFor(sid, now, id),
                   if Involves(now.sessions[sid], id) then Closed(now, sid) else now, was, id)
  {
    Visit(order, pending, was.sessions.Keys, sid);
    PruneOne(now.sessions, pending, was.sessions, id, sid);
    NoticePending(sid, now, was, id);
    NoticesAppend(order, sid, was, id);
  }

  lemma MidwayEnd<C>(order: seq<SessionId>, notify: seq<Delivery<C>>, now: Tables<C>, was: Tables<C>, id: PeerId)
    requires Midway(order, {}, notify, now, was, id)
    ensures now == Unregistered(was, id) && Enumerates(order, was.sessions.Keys) && notify == Notices(order, was, id)
  {
    assert now.sessions == Unregistered(was, id).sessions;
  }

  lemma {:induction false} NoticesToPeers<C>(order: seq<SessionId>, t: Tables<C>, id: PeerId)
    ensures forall d :: d in Notices(order, t, id) ==> d.to in t.peers.Values
  {
    if order != [] {
      NoticesToPeers(order[..|order| - 1], t, id);
    }
  }

  class Hub {
    const iceServers: seq<IceServer>
    var peers: map<PeerId, Peer>
    var sessions: map<SessionId, Session>

    ghost function Tables(): Tables<Peer>
      reads this
    {
      HubTables.Tables.Tables(peers, sessions)
    }

    constructor (ice: seq<IceServer>)
      ensures iceServers == ice && Tables() == HubTables.Tables.Tables(map[], map[])
    {
      iceServers, peers, sessions := ice, map[], map[];
    }

    method Register(p: Peer) returns (r: Result<()>)
      modifies this
      ensures r == if p.id in old(peers) then Fail(PeerAlreadyConnected) else Ok(())
      ensures Tables() == if r.Ok? then Registered(old(Tables()), p.id, p) else old(Tables())
    {
      if p.id in peers {
        return Fail(PeerAlreadyConnected);
      }
      peers := peers[p.id := p];
      return Ok(());
    }

    method OpenSession(initiator: PeerId, target: PeerId, newSid: SessionId) returns (r: Result<(SessionId, Peer)>)
      modifies this
      ensures r == if target in old(peers) then Ok((newSid, old(peers)[target])) else Fail(TargetUnknown)
      ensures Tables() == if r.Ok? then Opened(old(Tables()), initiator, target, newSid) else old(Tables())
    {
      if target !in peers {
        return Fail(TargetUnknown);
      }
      sessions := sessions[newSid := Session(initiator, target)];
      return Ok((newSid, peers[target]));
    }

    method OtherPeer(sid: SessionId, self: PeerId) returns (r: Result<Peer>)
      ensures r == HubTables.OtherPeer(Tables(), sid, self)
    {
      if sid !in sessions {
        return Fail(SessionUnknown);
      }
      var s := sessions[sid];
      var otherId: PeerId;
      if self == s.initiator {
        otherId := s.target;
      } else if self == s.target {
        otherId := s.initiator;
      } else {
        return Fail(NotMember);
      }
      if otherId !in peers {
        return Fail(TargetUnknown);
      }
      return Ok(peers[otherId]);
    }

    method CloseSession(sid: SessionId, closer: PeerId, reason: string)
      modifies this, peers.Values
      ensures Tables() == Closed(old(Tables()), sid)
      ensures forall p :: p in old(peers.Values) ==>
                p.Outbound() == SendAll(old(p.Outbound()), To(CloseNotice(old(Tables()), sid, closer, reason), p))
    {
      ghost var notice := CloseNotice(Tables(), sid, closer, reason);
      ghost var world := peers.Values;
      if sid in sessions {
        var s := sessions[sid];
        sessions := sessions - {sid};
        if closer == s.initiator || closer == s.target {
          var otherId := if closer == s.initiator then s.target else s.initiator;
          if otherId in peers {
            peers[otherId].Send(PeerGone(sid, reason));
          }
        }
      } else {
        assert sessions - {sid} == sessions;
      }
      forall p | p in world
        ensures p.Outbound() == SendAll(old(p.Outbound()), To(notice, p))
      {
        FewSends(old(p.Outbound()), notice, p);
      }
    }

    /** One turn of the range loop: drop the session if it involves `id`, and say whom to notify. */
    method DropSession(sid: SessionId, id: PeerId) returns (notice: seq<Delivery<Peer>>)
      requires sid in sessions && id !in peers
      modifies this`sessions
      ensures Tables() == if Involves(old(sessions)[sid], id) then Closed(old(Tables()), sid) else old(Tables())
      ensures notice == NoticeFor(sid, old(Tables()), id)
    {
      var s := sessions[sid];
      notice := [];
      if s.initiator == id || s.target == id {
        var otherId := s.initiator;
        if otherId == id {
          otherId := s.target;
        }
        if otherId in peers {
          notice := [Delivery(peers[otherId], PeerGone(sid, DISCONNECTED))];
        }
        sessions := sessions - {sid};
      }
    }

    /** The locked part of `Unregister`; `order` is the order in which the sessions were visited. */
    method RemovePeer(id: PeerId) returns (notify: seq<Delivery<Peer>>, ghost order: seq<SessionId>)
      modifies this
      ensures Tables() == Unregistered(old(Tables()), id)
      ensures Enumerates(order, old(sessions.Keys))
      ensures notify == Notices(order, old(Tables()), id)
    {
      ghost var was := Tables();
      peers := peers - {id};
      notify := [];
      var pending := sessions.Keys;
      order := [];
      while pending != {}
        invariant Midway(order, pending, notify, Tables(), was, id)
        decreases |pending|
      {
        var sid :| sid in pending;
        ghost var before := Tables();
        var notice := DropSession(sid, id);
        MidwayStep(order, pending, notify, before, was, id, sid);
        notify := notify + notice;
        order := order + [sid];
        pending := pending - {sid};
      }
      MidwayEnd(order, notify, Tables(), was, id);
    }

    /**
     * Removes the peer and its sessions, then notifies the counterparties outside the lock. Which
     * visiting order was taken is all that is left open.
     */
    method Unregister(id: PeerId) returns (ghost order: seq<SessionId>)
      modifies this, peers.Values
      ensures Tables() == Unregistered(old(Tables()), id)
      ensures Enumerates(order, old(sessions.Keys))
      ensures forall p :: p in old(peers.Values) ==>
                p.Outbound() == SendAll(old(p.Outbound()), To(Notices(order, old(Tables()), id), p))
    {
      ghost var world := peers.Values;
      var notify;
      ghost var was := Tables();
      notify, order := RemovePeer(id);
      NoticesToPeers(order, was, id);
      Notify(notify, world);
    }

    /** The sends after the lock is released, in the order they were collected. */
    method Notify(ds: seq<Delivery<Peer>>, ghost world: set<Peer>)
      requires forall d :: d in ds ==> d.to in world
      modifies world
      ensures forall p :: p in world ==> p.Outbound() == SendAll(old(p.Outbound()), To(ds, p))
    {
      assert ds[..0] == [];
      for i := 0 to |ds|
        invariant forall p :: p in world ==> p.Outbound() == SendAll(old(p.Outbound()), To(ds[..i], p))
      {
        assert ds[..i + 1] == ds[..i] + [ds[i]];
        label before:
        ds[i].to.Send(ds[i].msg);
        forall p | p in world
          ensures p.Outbound() == SendAll(old(p.Outbound()), To(ds[..i + 1], p))
        {
          assert ds[..i + 1] == ds[..i] + [ds[i]];
          assert old@before(p.Outbound()) == SendAll(old(p.Outbound()), To(ds[..i], p));
          ToAppend(ds[..i], ds[i], p);
          if p == ds[i].to {
            SendAllAppend(old(p.Outbound()), To(ds[..i], p), ds[i].msg);
            assert p.Outbound() == Mailbox.Send(old@before(p.Outbound()), ds[i].msg);
          } else {
            assert p.Outbound() == old@before(p.Outbound());
            assert To(ds[..i + 1], p) == To(ds[..i], p);
          }
        }
      }
      assert ds[..|ds|] == ds;
    }
  }
}
