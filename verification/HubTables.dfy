/**
 * The hub's two tables and every operation that runs under its lock, as functions. `C` stands
 * for a connection object: the `Hub` class uses `Peer` references, the interleaving model indices.
 */
module HubTables {
  import opened Sequences
  import opened Messages

  datatype Session = Session(initiator: PeerId, target: PeerId)
  datatype Tables<C> = Tables(peers: map<PeerId, C>, sessions: map<SessionId, Session>)
  datatype Result<T> = Ok(value: T) | Fail(error: HubError)

  /** One call of `Send` that a thread still has to make, or has made. */
  datatype Delivery<C> = Delivery(to: C, msg: Msg)

  const DISCONNECTED := "peer_disconnected"

  predicate Involves(s: Session, id: PeerId) {
    s.initiator == id || s.target == id
  }

  /** The other member; a self-session's other member is the peer itself. */
  function Other(s: Session, id: PeerId): PeerId {
    if s.initiator == id then s.target else s.initiator
  }

  function Registered<C>(t: Tables<C>, id: PeerId, c: C): Tables<C> {
    t.(peers := t.peers[id := c])
  }

  function Opened<C>(t: Tables<C>, initiator: PeerId, target: PeerId, sid: SessionId): Tables<C> {
    t.(sessions := t.sessions[sid := Session(initiator, target)])
  }

  function OtherPeer<C>(t: Tables<C>, sid: SessionId, self: PeerId): Result<C> {
    if sid !in t.sessions then Fail(SessionUnknown)
    else if !Involves(t.sessions[sid], self) then Fail(NotMember)
    else
      var other := Other(t.sessions[sid], self);
      if other in t.peers then Ok(t.peers[other]) else Fail(TargetUnknown)
  }

  function Closed<C>(t: Tables<C>, sid: SessionId): Tables<C> {
    t.(sessions := t.sessions - {sid})
  }

  /** The notice a closing member's counterparty is owed. */
  function CloseNotice<C>(t: Tables<C>, sid: SessionId, closer: PeerId, reason: string): seq<Delivery<C>> {
    match OtherPeer(t, sid, closer)
    case Ok(other) => [Delivery(other, PeerGone(sid, reason))]
    case Fail(_) => []
  }

  function Unregistered<C>(t: Tables<C>, id: PeerId): Tables<C> {
    Tables(t.peers - {id}, map sid | sid in t.sessions && !Involves(t.sessions[sid], id) :: t.sessions[sid])
  }

  /** `order` lists every key once: one way of ranging over a map. */
  predicate Enumerates(order: seq<SessionId>, keys: set<SessionId>) {
    (set x | x in order) == keys && Distinct(order)
  }

  predicate Distinct(xs: seq<SessionId>) {
    forall i, j :: 0 <= i < j < |xs| ==> xs[i] != xs[j]
  }

  /** The notice that `Unregister` derives from one session; `peers` no longer holds `id`. */
  function NoticeFor<C>(sid: SessionId, t: Tables<C>, id: PeerId): seq<Delivery<C>> {
    if sid in t.sessions && Involves(t.sessions[sid], id) && Other(t.sessions[sid], id) in t.peers - {id}
    then [Delivery(t.peers[Other(t.sessions[sid], id)], PeerGone(sid, DISCONNECTED))]
    else []
  }

  /** The notices of `Unregister` when its loop visits the sessions in `order`. */
  function Notices<C>(order: seq<SessionId>, t: Tables<C>, id: PeerId): seq<Delivery<C>> {
    if order == [] then []
    else
      var k := |order| - 1;
      Notices(order[..k], t, id) + NoticeFor(order[k], t, id)
  }

  /** The effect of one dispatched frame: the locked step, then the sends that follow it. */
  datatype Verdict<C> = Verdict(tables: Tables<C>, sends: seq<Delivery<C>>)

  function Refuse<C>(t: Tables<C>, self: C, text: ErrText): Verdict<C> {
    Verdict(t, [Delivery(self, Err(DispatchCode, text))])
  }

  function Dispatch<C>(t: Tables<C>, self: C, id: PeerId, req: Request, newSid: SessionId, ice: seq<IceServer>)
    : Verdict<C>
  {
    match req
    case Ping => Verdict(t, [Delivery(self, Pong)])
    case SessionReq(peer) =>
      if peer in t.peers then
        Verdict(Opened(t, id, peer, newSid),
                [Delivery(self, Ack(newSid, peer, ice, true)), Delivery(t.peers[peer], Ack(newSid, id, ice, false))])
      else Refuse(t, self, HubSays(TargetUnknown))
    case Sdp(session, _, _) => Forward(t, self, id, session, req)
    case Ice(session, _) => Forward(t, self, id, session, req)
    case Bye(session, reason) => Verdict(Closed(t, session), CloseNotice(t, session, id, reason))
    case Hello => Refuse(t, self, HelloAgain)
    case Unknown(kind) => Refuse(t, self, KindUnknown(kind))
    case Malformed(text) => Refuse(t, self, DecoderSays(text))
    case BadJson(text) => Verdict(t, [Delivery(self, Err(BadJsonCode, DecoderSays(text)))])
  }

  function Forward<C>(t: Tables<C>, self: C, id: PeerId, session: SessionId, req: Request): Verdict<C>
    requires req.Sdp? || req.Ice?
  {
    match OtherPeer(t, session, id)
    case Ok(other) => Verdict(t, [Delivery(other, Relay(req))])
    case Fail(e) => Refuse(t, self, HubSays(e))
  }

  /** The messages `ds` addresses to `to`, in order. */
  function To<C(==)>(ds: seq<Delivery<C>>, to: C): seq<Msg> {
    if ds == [] then []
    else
      var k := |ds| - 1;
      To(ds[..k], to) + (if ds[k].to == to then [ds[k].msg] else [])
  }

  lemma ToAppend<C>(ds: seq<Delivery<C>>, d: Delivery<C>, to: C)
    ensures To(ds + [d], to) == To(ds, to) + (if d.to == to then [d.msg] else [])
  {
    assert (ds + [d])[..|ds|] == ds;
  }

  lemma ToSingle<C>(d: Delivery<C>, to: C)
    ensures To([d], to) == if d.to == to then [d.msg] else []
  {
    assert [d][..0] == [];
  }

  lemma {:induction false} ToConcat<C>(ds: seq<Delivery<C>>, es: seq<Delivery<C>>, to: C)
    ensures To(ds + es, to) == To(ds, to) + To(es, to)
  {
    if es == [] {
      assert ds + es == ds;
    } else {
      var front, last := es[..|es| - 1], es[|es| - 1];
      assert es == front + [last];
      ToConcat(ds, front, to);
      ToConcatLast(ds, front, last, to);
    }
  }

  lemma ToConcatLast<C>(ds: seq<Delivery<C>>, es: seq<Delivery<C>>, e: Delivery<C>, to: C)
    requires To(ds + es, to) == To(ds, to) + To(es, to)
    ensures To(ds + (es + [e]), to) == To(ds, to) + To(es + [e], to)
  {
    assert ds + (es + [e]) == (ds + es) + [e];
    ToAppend(ds + es, e, to);
    ToAppend(es, e, to);
    AddLast(To(ds, to), To(es, to), if e.to == to then [e.msg] else []);
  }

  lemma AddLast<T>(a: seq<T>, b: seq<T>, c: seq<T>)
    ensures a + b + c == a + (b + c)
  {
  }

  lemma KeepToConcat<C>(f: Msg -> bool, ds: seq<Delivery<C>>, es: seq<Delivery<C>>, to: C)
    ensures Keep(f, To(ds + es, to)) == Keep(f, To(ds, to)) + Keep(f, To(es, to))
  {
    ToConcat(ds, es, to);
    KeepConcat(f, To(ds, to), To(es, to));
  }

  lemma {:induction false} ToMembers<C>(ds: seq<Delivery<C>>, to: C)
    ensures forall m :: m in To(ds, to) <==> Delivery(to, m) in ds
  {
    if ds != [] {
      var k := |ds| - 1;
      ToMembers(ds[..k], to);
      assert ds == ds[..k] + [ds[k]];
    }
  }

  /** Whoever is addressed first is told that first. */
  lemma ToFirst<C>(ds: seq<Delivery<C>>, to: C)
    requires ds != [] && ds[0].to == to
    ensures To(ds, to) != [] && To(ds, to)[0] == ds[0].msg
  {
    assert ds == [ds[0]] + ds[1..];
    ToConcat([ds[0]], ds[1..], to);
    ToSingle(ds[0], to);
  }

  lemma KeepNotice<C>(x: SessionId, t: Tables<C>, id: PeerId, to: C, sid: SessionId)
    ensures Keep(Naming(sid), To(NoticeFor(x, t, id), to)) == if x == sid then To(NoticeFor(x, t, id), to) else []
  {
    var ds := NoticeFor(x, t, id);
    if ds != [] {
      KeepGone(ds[0], x, to, sid);
      assert ds == [ds[0]];
    }
  }

  lemma KeepGone<C>(d: Delivery<C>, x: SessionId, to: C, sid: SessionId)
    requires d.msg.PeerGone? && d.msg.session == x
    ensures Keep(Naming(sid), To([d], to)) == if x == sid then To([d], to) else []
  {
    ToSingle(d, to);
    if d.to == to {
      KeepSingle(Naming(sid), d.msg);
    }
  }

  lemma DistinctLast(order: seq<SessionId>)
    requires Distinct(order) && order != []
    ensures order[|order| - 1] !in order[..|order| - 1] && Distinct(order[..|order| - 1])
  {
  }

  lemma NoticesAboutLast<C>(order: seq<SessionId>, x: SessionId, t: Tables<C>, id: PeerId, to: C, sid: SessionId)
    ensures Keep(Naming(sid), To(Notices(order + [x], t, id), to))
         == Keep(Naming(sid), To(Notices(order, t, id), to)) + (if x == sid then To(NoticeFor(x, t, id), to) else [])
  {
    assert (order + [x])[..|order|] == order;
    KeepToConcat(Naming(sid), Notices(order, t, id), NoticeFor(x, t, id), to);
    KeepNotice(x, t, id, to, sid);
  }

  /** What `Unregister` hands to `to` about one session does not depend on the visiting order. */
  lemma {:induction false} NoticesAbout<C>(order: seq<SessionId>, t: Tables<C>, id: PeerId, to: C, sid: SessionId)
    requires Distinct(order)
    ensures Keep(Naming(sid), To(Notices(order, t, id), to))
         == if sid in order then To(NoticeFor(sid, t, id), to) else []
  {
    if order != [] {
      var before, x := order[..|order| - 1], order[|order| - 1];
      NoticesAbout(before, t, id, to, sid);
      NoticesAboutLast(before, x, t, id, to, sid);
      FrontLast(order);
      DistinctLast(order);
    }
  }

  lemma {:induction false} NoticeCount<C>(order: seq<SessionId>, t: Tables<C>, id: PeerId, d: Delivery<C>)
    requires Distinct(order)
    ensures multiset(Notices(order, t, id))[d]
         == if d.msg.PeerGone? && d.msg.session in order && NoticeFor(d.msg.session, t, id) == [d] then 1 else 0
  {
    if order != [] {
      var k := |order| - 1;
      NoticeCount(order[..k], t, id, d);
      FrontLast(order);
      DistinctLast(order);
      assert multiset(Notices(order, t, id))
          == multiset(Notices(order[..k], t, id)) + multiset(NoticeFor(order[k], t, id));
    }
  }

  /** The notices are the same multiset for every visiting order. */
  lemma NoticesOrderIndependent<C>(o1: seq<SessionId>, o2: seq<SessionId>, t: Tables<C>, id: PeerId)
    requires Enumerates(o1, t.sessions.Keys) && Enumerates(o2, t.sessions.Keys)
    ensures multiset(Notices(o1, t, id)) == multiset(Notices(o2, t, id))
  {
    var m1, m2 := multiset(Notices(o1, t, id)), multiset(Notices(o2, t, id));
    forall d | d in m1 + m2
      ensures m1[d] == m2[d]
    {
      NoticeCount(o1, t, id, d);
      NoticeCount(o2, t, id, d);
      if d.msg.PeerGone? {
        assert d.msg.session in o1 <==> d.msg.session in t.sessions.Keys;
        assert d.msg.session in o2 <==> d.msg.session in t.sessions.Keys;
      }
    }
    assert m1 == m2;
  }
}
