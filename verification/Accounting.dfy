/**
 * The books of a whole run, kept event by event: how many sessions were opened, how each was
 * removed, and how many notices the removals owe.
 */
module Accounting {
  import opened Messages
  import opened HubTables
  import opened Network
  import opened NetworkInvariant
  import opened RunHistory

  // ----- what one event does to the books -----

  predicate OpensOne(s: State, e: Event) {
    e.Read? && Opens(s, e, e.newSid)
  }

  /** `e` is a bye that removes a live session. */
  predicate Removing(s: State, e: Event) {
    e.Read? && e.req.Bye? && e.req.session in s.tables.sessions && e.req.session in s.records
  }

  /** The sessions that end because `e` unregisters a member. */
  function Lost(s: State, e: Event): set<SessionId> {
    if e.Leave? && e.c < |s.conns|
    then set sid | sid in s.tables.sessions && Involves(s.tables.sessions[sid], s.conns[e.c].id)
    else {}
  }

  /** Those of them that have a counterparty. */
  function LostWithPeer(s: State, e: Event): set<SessionId> {
    set sid | sid in Lost(s, e) && sid in s.tables.sessions
              && s.tables.sessions[sid].initiator != s.tables.sessions[sid].target
  }

  datatype Books = Books(openings: nat, memberByes: nat, strangerByes: nat, lost: nat, lostWithPeer: nat)

  function Entry(s: State, e: Event): Books {
    Books(if OpensOne(s, e) then 1 else 0,
          if Removing(s, e) && Member(s.records[e.req.session], e.c) then 1 else 0,
          if Removing(s, e) && !Member(s.records[e.req.session], e.c) then 1 else 0,
          |Lost(s, e)|, |LostWithPeer(s, e)|)
  }

  function Sum(a: Books, b: Books): Books {
    Books(a.openings + b.openings, a.memberByes + b.memberByes, a.strangerByes + b.strangerByes,
          a.lost + b.lost, a.lostWithPeer + b.lostWithPeer)
  }

  /** The books after `n` events. */
  function BooksAt(ss: seq<State>, es: seq<Event>, n: nat): Books
    requires n <= |es| && n <= |ss|
  {
    if n == 0 then Books(0, 0, 0, 0, 0) else Sum(BooksAt(ss, es, n - 1), Entry(ss[n - 1], es[n - 1]))
  }

  // ----- sessions -----

  lemma OpenCounts(s: State, e: Event)
    requires RecordsOk(s) && OpensOne(s, e)
    ensures |Step(s, e).tables.sessions| == |s.tables.sessions| + 1
  {
    var now := Step(s, e).tables.sessions;
    assert now.Keys == s.tables.sessions.Keys + {e.newSid};
    assert |now| == |now.Keys|;
  }

  lemma ByeCounts(s: State, e: Event)
    requires Enabled(s, e) && Removing(s, e)
    ensures |Step(s, e).tables.sessions| == |s.tables.sessions| - 1
  {
    var now := Step(s, e).tables.sessions;
    assert s.tables.sessions.Keys == now.Keys + {e.req.session};
    assert |now| == |now.Keys|;
  }

  lemma LeaveCounts(s: State, c: nat, order: seq<SessionId>)
    requires c < |s.conns|
    ensures |Unregistered(s.tables, s.conns[c].id).sessions| == |s.tables.sessions| - |Lost(s, Leave(c, order))|
  {
    var now := Unregistered(s.tables, s.conns[c].id).sessions;
    var lost := Lost(s, Leave(c, order));
    assert s.tables.sessions.Keys == now.Keys + lost && now.Keys !! lost;
    assert |now| == |now.Keys|;
  }

  lemma OtherFramesKeepSessions(s: State, e: Event)
    requires RecordsOk(s) && Enabled(s, e) && e.Read? && !OpensOne(s, e) && !Removing(s, e)
    ensures ReadStep(s, e.c, e.req, e.newSid).tables.sessions == s.tables.sessions
  {
  }

  lemma StepCounts(s: State, e: Event)
    requires RecordsOk(s) && Enabled(s, e)
    ensures var b := Entry(s, e);
            |Step(s, e).tables.sessions| + b.memberByes + b.strangerByes + b.lost == |s.tables.sessions| + b.openings
  {
    if OpensOne(s, e) {
      OpenCounts(s, e);
    } else if Removing(s, e) {
      ByeCounts(s, e);
    } else if e.Leave? {
      LeaveCounts(s, e.c, e.order);
    } else if e.Read? {
      OtherFramesKeepSessions(s, e);
    } else {
      NetworkInvariant.OtherStepsKeepSessions(s, e);
    }
  }

  lemma RunStepCounts(ss: seq<State>, es: seq<Event>, n: nat)
    requires IsRun(ss, es) && n < |es|
    ensures var b := Entry(ss[n], es[n]);
            |ss[n + 1].tables.sessions| + b.memberByes + b.strangerByes + b.lost == |ss[n].tables.sessions| + b.openings
  {
    RunStep(ss, es, n);
    StepCounts(ss[n], es[n]);
  }

  /**
   * Every session opened is live, or was removed by a member's bye, by a stranger's bye, or by the
   * disconnect of a member: counted over the events of the run.
   */
  lemma {:induction false} EventsConserved(ss: seq<State>, es: seq<Event>, n: nat)
    requires IsRun(ss, es) && n < |ss|
    ensures var b := BooksAt(ss, es, n);
            b.openings == |ss[n].tables.sessions| + b.memberByes + b.strangerByes + b.lost
  {
    if n > 0 {
      EventsConserved(ss, es, n - 1);
      RunStepCounts(ss, es, n - 1);
    }
  }

  // ----- notices -----

  function GoneCount(ds: seq<Delivery<nat>>): nat {
    if ds == [] then 0
    else GoneCount(ds[..|ds| - 1]) + (if ds[|ds| - 1].msg.PeerGone? then 1 else 0)
  }

  /** The notices that all threads together have decided to send. */
  function NoticesDecided(conns: seq<Conn>): nat {
    if conns == [] then 0 else NoticesDecided(conns[..|conns| - 1]) + GoneCount(Plan(conns[|conns| - 1]))
  }

  lemma {:induction false} GoneConcat(ds: seq<Delivery<nat>>, es: seq<Delivery<nat>>)
    ensures GoneCount(ds + es) == GoneCount(ds) + GoneCount(es)
  {
    if es == [] {
      assert ds + es == ds;
    } else {
      var k := |es| - 1;
      GoneConcat(ds, es[..k]);
      assert (ds + es)[..|ds| + k] == ds + es[..k];
    }
  }

  lemma GoneFew(ds: seq<Delivery<nat>>)
    requires |ds| <= 2
    ensures GoneCount(ds) == (if |ds| > 0 && ds[0].msg.PeerGone? then 1 else 0)
                             + (if |ds| > 1 && ds[1].msg.PeerGone? then 1 else 0)
  {
    if |ds| == 2 {
      assert ds[..1] == [ds[0]];
    }
  }

  lemma {:induction false} NoticesUpdate(conns: seq<Conn>, conns': seq<Conn>, c: nat, d: nat)
    requires |conns'| == |conns| && c < |conns|
    requires forall x :: 0 <= x < |conns| && x != c ==> Plan(conns'[x]) == Plan(conns[x])
    requires GoneCount(Plan(conns'[c])) == GoneCount(Plan(conns[c])) + d
    ensures NoticesDecided(conns') == NoticesDecided(conns) + d
  {
    var k := |conns| - 1;
    if c < k {
      NoticesUpdate(conns[..k], conns'[..k], c, d);
    } else {
      NoticesSame(conns[..k], conns'[..k]);
    }
  }

  lemma {:induction false} NoticesSame(conns: seq<Conn>, conns': seq<Conn>)
    requires |conns'| == |conns|
    requires forall x :: 0 <= x < |conns| ==> Plan(conns'[x]) == Plan(conns[x])
    ensures NoticesDecided(conns') == NoticesDecided(conns)
  {
    if conns != [] {
      var k := |conns| - 1;
      NoticesSame(conns[..k], conns'[..k]);
    }
  }

  /** A bye owes one notice if its sender is a member. */
  lemma ByeOwes(s: State, c: nat, sid: SessionId, reason: string)
    requires TablesOk(s) && c < |s.conns| && Enrolled(s.conns[c].phase) && sid in s.tables.sessions
    ensures sid in s.records
    ensures GoneCount(CloseNotice(s.tables, sid, s.conns[c].id, reason)) == if Member(s.records[sid], c) then 1 else 0
  {
    OtherEnd(s, c, sid);
    GoneFew(CloseNotice(s.tables, sid, s.conns[c].id, reason));
  }

  lemma DispatchOwes(s: State, c: nat, req: Request, newSid: SessionId)
    requires TablesOk(s) && c < |s.conns| && Enrolled(s.conns[c].phase)
    ensures GoneCount(Dispatch(s.tables, c, s.conns[c].id, req, newSid, s.ice).sends)
         == if req.Bye? && req.session in s.tables.sessions && req.session in s.records
               && Member(s.records[req.session], c) then 1 else 0
  {
    if req.Bye? && req.session in s.tables.sessions {
      ByeOwes(s, c, req.session, req.reason);
    } else {
      DispatchFew(s.tables, c, s.conns[c].id, req, newSid, s.ice);
      GoneFew(Dispatch(s.tables, c, s.conns[c].id, req, newSid, s.ice).sends);
    }
  }

  lemma DispatchFew(t: Tables<nat>, c: nat, id: PeerId, req: Request, newSid: SessionId, ice: seq<IceServer>)
    requires req.Bye? ==> req.session !in t.sessions
    ensures |Dispatch(t, c, id, req, newSid, ice).sends| <= 2
    ensures forall d <- Dispatch(t, c, id, req, newSid, ice).sends :: !d.msg.PeerGone?
  {
  }

  /** The sessions in `order` for which `Unregister` owes a notice. */
  function Owing(order: seq<SessionId>, t: Tables<nat>, id: PeerId): set<SessionId> {
    set sid | sid in order && NoticeFor(sid, t, id) != []
  }

  lemma {:induction false} NoticesOwed(order: seq<SessionId>, t: Tables<nat>, id: PeerId)
    requires Distinct(order)
    ensures GoneCount(Notices(order, t, id)) == |Owing(order, t, id)|
  {
    if order == [] {
      assert Owing(order, t, id) == {};
    } else {
      var before, x := order[..|order| - 1], order[|order| - 1];
      NoticesOwed(before, t, id);
      DistinctLast(order);
      OwingLast(before, x, t, id);
      GoneConcat(Notices(before, t, id), NoticeFor(x, t, id));
      GoneFew(NoticeFor(x, t, id));
      assert order == before + [x];
    }
  }

  lemma OwingLast(before: seq<SessionId>, x: SessionId, t: Tables<nat>, id: PeerId)
    requires x !in before
    ensures |Owing(before + [x], t, id)| == |Owing(before, t, id)| + |NoticeFor(x, t, id)|
  {
    if NoticeFor(x, t, id) == [] {
      assert Owing(before + [x], t, id) == Owing(before, t, id);
    } else {
      assert Owing(before + [x], t, id) == Owing(before, t, id) + {x};
    }
  }

  /** A session that a leaving connection loses owes a notice exactly when it has a counterparty. */
  lemma LossOwes(s: State, c: nat, sid: SessionId)
    requires TablesOk(s) && c < |s.conns| && Enrolled(s.conns[c].phase)
    requires sid in s.tables.sessions && Involves(s.tables.sessions[sid], s.conns[c].id)
    ensures NoticeFor(sid, s.tables, s.conns[c].id) != []
       <==> s.tables.sessions[sid].initiator != s.tables.sessions[sid].target
  {
    assert sid in s.records && RecordOk(s, sid) && Bound(s, sid);
  }

  lemma OwingIsLoss(s: State, c: nat, order: seq<SessionId>, sid: SessionId)
    requires TablesOk(s) && c < |s.conns| && Enrolled(s.conns[c].phase)
    requires sid in order <==> sid in s.tables.sessions
    ensures sid in Owing(order, s.tables, s.conns[c].id) <==> sid in LostWithPeer(s, Leave(c, order))
  {
    if sid in s.tables.sessions && Involves(s.tables.sessions[sid], s.conns[c].id) {
      LossOwes(s, c, sid);
    }
  }

  lemma LeaveOwes(s: State, c: nat, order: seq<SessionId>)
    requires TablesOk(s) && c < |s.conns| && Enrolled(s.conns[c].phase)
    requires Enumerates(order, s.tables.sessions.Keys)
    ensures GoneCount(Notices(order, s.tables, s.conns[c].id)) == |LostWithPeer(s, Leave(c, order))|
  {
    NoticesOwed(order, s.tables, s.conns[c].id);
    forall sid
      ensures sid in Owing(order, s.tables, s.conns[c].id) <==> sid in LostWithPeer(s, Leave(c, order))
    {
      assert sid in order <==> sid in s.tables.sessions.Keys;
      OwingIsLoss(s, c, order, sid);
    }
    assert Owing(order, s.tables, s.conns[c].id) == LostWithPeer(s, Leave(c, order));
  }

  lemma ReadOwes(s: State, c: nat, req: Request, newSid: SessionId)
    requires TablesOk(s) && c < |s.conns| && Enrolled(s.conns[c].phase)
    ensures GoneCount(ReadStep(s, c, req, newSid).conns[c].outbox) == Entry(s, Read(c, req, newSid)).memberByes
  {
    DispatchOwes(s, c, req, newSid);
  }

  /** What a step's thread decides to send holds as many notices as the step's entry says. */
  lemma NewSendsOwe(s: State, e: Event)
    requires TablesOk(s) && Enabled(s, e) && !e.Arrive? && ConnOk(s, e.c)
    ensures GoneCount(NewSends(s, e, e.c)) == Entry(s, e).memberByes + Entry(s, e).lostWithPeer
  {
    assert !e.Leave? ==> LostWithPeer(s, e) == {};
    match e {
      case Register(c) => GoneFew(RegisterStep(s, c).conns[c].outbox);
      case Read(c, req, newSid) => ReadOwes(s, c, req, newSid);
      case Leave(c, order) => LeaveOwes(s, c, order);
      case _ =>
    }
  }

  lemma ArriveDecides(s: State, id: PeerId)
    requires Enabled(s, Arrive(id))
    ensures NoticesDecided(Step(s, Arrive(id)).conns) == NoticesDecided(s.conns)
  {
    var now := Step(s, Arrive(id)).conns;
    assert now[..|s.conns|] == s.conns;
    assert Plan(now[|s.conns|]) == [];
  }

  lemma ActDecides(s: State, e: Event)
    requires ConnsOk(s) && TablesOk(s) && Enabled(s, e) && !e.Arrive?
    ensures NoticesDecided(Step(s, e).conns) == NoticesDecided(s.conns) + GoneCount(NewSends(s, e, e.c))
  {
    var conns, conns' := s.conns, Step(s, e).conns;
    SizesTogether(s, e);
    assert ConnOk(s, e.c);
    forall x | 0 <= x < |conns| && x != e.c
      ensures conns'[x] == conns[x]
    {
      OthersUntouched(s, e, x);
    }
    PlanStep(s, e, e.c);
    GoneConcat(Plan(conns[e.c]), NewSends(s, e, e.c));
    NoticesUpdate(conns, conns', e.c, GoneCount(NewSends(s, e, e.c)));
  }

  lemma StepDecides(s: State, e: Event)
    requires ConnsOk(s) && TablesOk(s) && Enabled(s, e)
    ensures NoticesDecided(Step(s, e).conns) == NoticesDecided(s.conns) + Entry(s, e).memberByes + Entry(s, e).lostWithPeer
  {
    if e.Arrive? {
      ArriveDecides(s, e.id);
    } else {
      ActDecides(s, e);
      assert ConnOk(s, e.c);
      NewSendsOwe(s, e);
    }
  }

  lemma RunStepDecides(ss: seq<State>, es: seq<Event>, n: nat)
    requires IsRun(ss, es) && n < |es|
    ensures var b := Entry(ss[n], es[n]);
            NoticesDecided(ss[n + 1].conns) == NoticesDecided(ss[n].conns) + b.memberByes + b.lostWithPeer
  {
    RunStep(ss, es, n);
    StepDecides(ss[n], es[n]);
  }

  /**
   * Over every run, the threads have decided on exactly as many notices as there were byes by
   * members and sessions with a counterparty lost to disconnects; a stranger's bye owes none.
   */
  lemma {:induction false} NoticesConserved(ss: seq<State>, es: seq<Event>, n: nat)
    requires IsRun(ss, es) && n < |ss|
    ensures NoticesDecided(ss[n].conns) == BooksAt(ss, es, n).memberByes + BooksAt(ss, es, n).lostWithPeer
  {
    if n > 0 {
      NoticesConserved(ss, es, n - 1);
      RunStepDecides(ss, es, n - 1);
    }
  }
}
