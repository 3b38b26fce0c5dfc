/**
 * Runs that show which tempting properties the server does not have. Each lemma exhibits a
 * complete run from the empty server, for every choice of the ids involved.
 */
module Counterexamples {
  import opened Basics
  import opened Messages
  import opened HubTables
  import opened Mailbox
  import opened Network
  import opened RelaySessions
  import opened RunHistory

  /** A connection that has just arrived as number `n` registers and is handed its greeting. */
  function Greeted(s: State, id: PeerId): State {
    var c := |s.conns|;
    var hello := Delivery(c, HelloOk(id));
    s.(conns := s.conns + [Conn(id, Serving, [], false, false, [hello], [])],
       boxes := s.boxes + [Hand(NewBox<Letter>(), c, HelloOk(id)).(writer := Selecting)],
       tables := Registered(s.tables, id, c))
  }

  lemma Greet(ss: seq<State>, es: seq<Event>, id: PeerId) returns (ss': seq<State>, es': seq<Event>)
    requires IsRun(ss, es)
    requires |ss[|es|].boxes| == |ss[|es|].conns| && id !in ss[|es|].tables.peers
    ensures IsRun(ss', es') && ss'[|es'|] == Greeted(ss[|es|], id)
  {
    var s := ss[|es|];
    var c := |s.conns|;
    ss', es' := Do(ss, es, Arrive(id));
    ss', es' := Do(ss', es', Register(c));
    ss', es' := Do(ss', es', Perform(c));
    ss', es' := Do(ss', es', Start(c));
    GreetedConn(s, id, ss'[|es'|]);
  }

  lemma GreetedConn(s: State, id: PeerId, s4: State)
    requires |s.boxes| == |s.conns| && id !in s.tables.peers
    requires var c := |s.conns|;
             var s1 := Step(s, Arrive(id));
             var s2 := RegisterStep(s1, c);
             var s3 := PerformStep(s2, c);
             s4 == Step(s3, Start(c))
    ensures s4 == Greeted(s, id)
  {
    var c := |s.conns|;
    var d: Delivery<nat> := Delivery(c, HelloOk(id));
    assert [d][1..] == [] && [] + [d] == [d];
    assert s4.conns[c] == Greeted(s, id).conns[c];
    assert s4.conns == Greeted(s, id).conns;
    assert s4.boxes == Greeted(s, id).boxes;
  }

  lemma Two(a: PeerId, b: PeerId) returns (ss: seq<State>, es: seq<Event>)
    requires a != b
    ensures IsRun(ss, es) && ss[|es|] == Greeted(Greeted(Init([]), a), b)
  {
    ss, es := [Init([])], [];
    ss, es := Greet(ss, es, a);
    ss, es := Greet(ss, es, b);
  }

  // ----- a session.ack ahead of hello.ok -----

  /** `b`, connection 1, is listed and its thread owes the hello.ok; `a`, connection 0, owes `owed`. */
  predicate Listing(s: State, a: PeerId, b: PeerId, owed: seq<Delivery<nat>>, letters: seq<Letter>) {
    && |s.conns| == 2 && |s.boxes| == 2 && s.ice == []
    && s.tables.peers == map[a := 0, b := 1] && s.records.Keys == s.tables.sessions.Keys
    && s.conns[0].id == a && s.conns[0].phase == Serving && s.conns[0].outbox == owed
    && s.conns[1].outbox == [Delivery(1, HelloOk(b))]
    && s.boxes[1].sent == letters
  }

  lemma ReachListing(a: PeerId, b: PeerId) returns (ss: seq<State>, es: seq<Event>)
    requires a != b
    ensures IsRun(ss, es) && Listing(ss[|es|], a, b, [], []) && ss[|es|].records == map[]
  {
    ss, es := [Init([])], [];
    ss, es := Greet(ss, es, a);
    ss, es := Do(ss, es, Arrive(b));
    ss, es := Do(ss, es, Register(1));
    assert ss[|es|].tables.peers == map[a := 0, b := 1];
  }

  lemma ListingCalled(s: State, a: PeerId, b: PeerId, sid: SessionId)
    requires a != b && Listing(s, a, b, [], []) && s.records == map[]
    ensures Enabled(s, Read(0, SessionReq(b), sid))
    ensures Listing(Step(s, Read(0, SessionReq(b), sid)), a, b,
                    [Delivery(0, Ack(sid, b, [], true)), Delivery(1, Ack(sid, a, [], false))], [])
  {
  }

  lemma ListingPerforms(s: State, a: PeerId, b: PeerId, owed: seq<Delivery<nat>>, letters: seq<Letter>)
    requires Listing(s, a, b, owed, letters) && owed != [] && owed[0].to < 2
    ensures Enabled(s, Perform(0))
    ensures Listing(Step(s, Perform(0)), a, b, owed[1..],
                    if owed[0].to == 1 then letters + [Letter(0, owed[0].msg, |letters|)] else letters)
  {
  }

  lemma ReachOvertaken(a: PeerId, b: PeerId, sid: SessionId) returns (ss: seq<State>, es: seq<Event>)
    requires a != b
    ensures IsRun(ss, es) && Listing(ss[|es|], a, b, [], [Letter(0, Ack(sid, a, [], false), 0)])
  {
    ss, es := ReachListing(a, b);
    ListingCalled(ss[|es|], a, b, sid);
    ss, es := Do(ss, es, Read(0, SessionReq(b), sid));
    var owed: seq<Delivery<nat>> := [Delivery(0, Ack(sid, b, [], true)), Delivery(1, Ack(sid, a, [], false))];
    ListingPerforms(ss[|es|], a, b, owed, []);
    ss, es := Do(ss, es, Perform(0));
    ListingPerforms(ss[|es|], a, b, owed[1..], []);
    ss, es := Do(ss, es, Perform(0));
  }

  /** hello.ok need not be the first message a peer is handed: a session.ack can overtake it. */
  lemma AckCanOvertakeHello(a: PeerId, b: PeerId, sid: SessionId) returns (ss: seq<State>, es: seq<Event>)
    requires a != b
    ensures IsRun(ss, es) && |ss[|es|].boxes| == 2
    ensures Bodies(ss[|es|].boxes[1].sent) == [Ack(sid, a, [], false), HelloOk(b)]
  {
    ss, es := ReachOvertaken(a, b, sid);
    ss, es := Do(ss, es, Perform(1));
    assert ss[|es|].boxes[1].sent == [Letter(0, Ack(sid, a, [], false), 0), Letter(1, HelloOk(b), 1)];
  }

  // ----- a notice ahead of the acknowledgement -----

  /** The target's loops have ended while the initiator still owes both acknowledgements. */
  predicate InTheGap(s: State, a: PeerId, b: PeerId, sid: SessionId) {
    && |s.conns| == 2 && |s.boxes| == 2
    && s.tables == Tables(map[a := 0, b := 1], map[sid := Session(a, b)])
    && s.conns[0].outbox == [Delivery(0, Ack(sid, b, [], true)), Delivery(1, Ack(sid, a, [], false))]
    && s.boxes[0].sent == [Letter(0, HelloOk(a), 0)]
    && s.conns[1].id == b && s.conns[1].phase == Drained && s.conns[1].woken && s.boxes[1].writer.Stopped?
  }

  lemma ReachGap(a: PeerId, b: PeerId, sid: SessionId) returns (ss: seq<State>, es: seq<Event>)
    requires a != b
    ensures IsRun(ss, es) && InTheGap(ss[|es|], a, b, sid)
  {
    ss, es := Two(a, b);
    ss, es := Do(ss, es, Read(0, SessionReq(b), sid));
    assert ss[|es|].tables.peers == map[a := 0, b := 1];
    assert ss[|es|].tables.sessions == map[sid := Session(a, b)];
    ss, es := Do(ss, es, Write(1, PingFail));
    ss, es := Do(ss, es, ReadEnd(1));
    ss, es := Do(ss, es, Wake(1));
  }

  lemma LeaveGap(s: State, a: PeerId, b: PeerId, sid: SessionId)
    requires a != b && InTheGap(s, a, b, sid)
    ensures Enabled(s, Leave(1, [sid]))
    ensures var s' := Step(s, Leave(1, [sid]));
            && |s'.conns| == 2 && s'.boxes == s.boxes && s'.conns[0] == s.conns[0]
            && s'.conns[1].outbox == [Delivery(0, PeerGone(sid, DISCONNECTED))]
  {
    assert s.tables.sessions.Keys == {sid};
    assert [sid][..0] == [];
    assert Notices([sid], s.tables, b) == Notices([], s.tables, b) + NoticeFor(sid, s.tables, b);
  }

  /** In the gap: the target has unregistered and owes the initiator its notice. */
  predicate Told(s: State, a: PeerId, b: PeerId, sid: SessionId, letters: seq<Letter>, owed: seq<Delivery<nat>>) {
    && |s.conns| == 2 && |s.boxes| == 2
    && s.conns[0].outbox == [Delivery(0, Ack(sid, b, [], true)), Delivery(1, Ack(sid, a, [], false))]
    && s.conns[1].outbox == owed && s.boxes[0].sent == letters
  }

  lemma ToldPerforms(s: State, a: PeerId, b: PeerId, sid: SessionId, letters: seq<Letter>, owed: seq<Delivery<nat>>)
    requires Told(s, a, b, sid, letters, owed) && owed != [] && owed[0].to == 0
    ensures Enabled(s, Perform(1))
    ensures Told(Step(s, Perform(1)), a, b, sid, letters + [Letter(1, owed[0].msg, |letters|)], owed[1..])
  {
  }

  /**
   * The initiator can be told that a session is gone before it is acknowledged: the target leaves
   * between the locked step that opened the session and the sends that follow it.
   */
  lemma GoneCanPrecedeAck(a: PeerId, b: PeerId, sid: SessionId) returns (ss: seq<State>, es: seq<Event>)
    requires a != b
    ensures IsRun(ss, es) && |ss[|es|].boxes| == 2
    ensures Bodies(ss[|es|].boxes[0].sent) == [HelloOk(a), PeerGone(sid, DISCONNECTED), Ack(sid, b, [], true)]
  {
    ss, es := ReachGap(a, b, sid);
    LeaveGap(ss[|es|], a, b, sid);
    ss, es := Do(ss, es, Leave(1, [sid]));
    ToldPerforms(ss[|es|], a, b, sid, [Letter(0, HelloOk(a), 0)], [Delivery(0, PeerGone(sid, DISCONNECTED))]);
    ss, es := Do(ss, es, Perform(1));
    ss, es := Do(ss, es, Perform(0));
    assert ss[|es|].boxes[0].sent
        == [Letter(0, HelloOk(a), 0), Letter(1, PeerGone(sid, DISCONNECTED), 1), Letter(0, Ack(sid, b, [], true), 2)];
  }

  // ----- a bye that nobody is told of -----

  /** A connection outside the session ends it with a bye, and neither member is owed a notice. */
  lemma StrangerByeIsSilent(a: PeerId, b: PeerId, x: PeerId, sid: SessionId, other: SessionId, reason: string)
    returns (ss: seq<State>, es: seq<Event>)
    requires a != b && a != x && b != x && other != sid
    ensures IsRun(ss, es) && |es| > 0 && sid in ss[|es| - 1].tables.sessions
    ensures ss[|es|].tables.sessions == map[] && |ss[|es|].conns| == 3 && ss[|es|].conns[2].outbox == []
    ensures ss[|es|].boxes == ss[|es| - 1].boxes
  {
    ss, es := Two(a, b);
    ss, es := Greet(ss, es, x);
    ss, es := Do(ss, es, Read(0, SessionReq(b), sid));
    assert ss[|es|].tables.sessions == map[sid := Session(a, b)];
    ss, es := Do(ss, es, Read(2, Bye(sid, reason), other));
  }

  // ----- servers at rest -----

  /** All of `ids` are connected and dispatching, and their threads owe nothing, but `x` owes `owed`. */
  predicate CalmBut(s: State, ids: seq<PeerId>, x: nat, owed: seq<Delivery<nat>>) {
    && |s.conns| == |ids| && |s.boxes| == |ids| && s.ice == []
    && (forall c :: 0 <= c < |ids| ==> s.conns[c].id == ids[c] && s.conns[c].phase == Serving)
    && (forall c :: 0 <= c < |ids| ==> s.conns[c].outbox == if c == x then owed else [])
    && (forall c :: 0 <= c < |ids| ==> ids[c] in s.tables.peers && s.tables.peers[ids[c]] == c)
    && (forall id :: id in s.tables.peers ==> id in ids)
  }

  predicate Calm(s: State, ids: seq<PeerId>) {
    CalmBut(s, ids, 0, [])
  }

  lemma CalmAnywhere(s: State, ids: seq<PeerId>, x: nat)
    ensures Calm(s, ids) <==> CalmBut(s, ids, x, [])
  {
  }

  /** `x` makes the next send it owes. */
  lemma HandOver(ss: seq<State>, es: seq<Event>, ids: seq<PeerId>, x: nat, owed: seq<Delivery<nat>>)
      returns (ss': seq<State>, es': seq<Event>)
    requires IsRun(ss, es) && CalmBut(ss[|es|], ids, x, owed) && x < |ids| && owed != [] && owed[0].to < |ids|
    ensures IsRun(ss', es') && CalmBut(ss'[|es'|], ids, x, owed[1..])
    ensures ss <= ss' && es <= es'
    ensures ss'[|es'|].records == ss[|es|].records && ss'[|es'|].tables == ss[|es|].tables
    ensures ss'[|es'|].boxes == ss[|es|].boxes[owed[0].to := Hand(ss[|es|].boxes[owed[0].to], x, owed[0].msg)]
  {
    ss', es' := Do(ss, es, Perform(x));
    assert ss'[|es'|] == PerformStep(ss[|es|], x);
  }

  lemma Join(ss: seq<State>, es: seq<Event>, ids: seq<PeerId>, id: PeerId) returns (ss': seq<State>, es': seq<Event>)
    requires IsRun(ss, es) && Calm(ss[|es|], ids) && id !in ids
    ensures IsRun(ss', es') && Calm(ss'[|es'|], ids + [id])
    ensures ss'[|es'|].records == ss[|es|].records && ss'[|es'|].tables.sessions == ss[|es|].tables.sessions
    ensures ss'[|es'|].boxes == ss[|es|].boxes + [Greeting(|ids|, id)]
  {
    ss', es' := Greet(ss, es, id);
  }

  /** The mailbox of a connection that has just been greeted. */
  function Greeting(c: nat, id: PeerId): Box<Letter> {
    Hand(NewBox<Letter>(), c, HelloOk(id)).(writer := Selecting)
  }

  /** A frame that leads to a single send. */
  lemma Ask(ss: seq<State>, es: seq<Event>, ids: seq<PeerId>, c: nat, req: Request, sid: SessionId, d: Delivery<nat>)
      returns (ss': seq<State>, es': seq<Event>)
    requires IsRun(ss, es) && Calm(ss[|es|], ids) && c < |ids| && sid !in ss[|es|].records
    requires Dispatch(ss[|es|].tables, c, ids[c], req, sid, []) == Verdict(ss[|es|].tables, [d]) && d.to < |ids|
    ensures IsRun(ss', es') && Calm(ss'[|es'|], ids)
    ensures ss <= ss' && es <= es'
    ensures ss'[|es'|].records == ss[|es|].records && ss'[|es'|].tables == ss[|es|].tables
    ensures ss'[|es'|].boxes == ss[|es|].boxes[d.to := Hand(ss[|es|].boxes[d.to], c, d.msg)]
  {
    AskOwes(ss[|es|], ids, c, req, sid, d);
    ss', es' := Do(ss, es, Read(c, req, sid));
    ss', es' := HandOver(ss', es', ids, c, [d]);
    CalmAnywhere(ss'[|es'|], ids, c);
  }

  lemma AskOwes(s: State, ids: seq<PeerId>, c: nat, req: Request, sid: SessionId, d: Delivery<nat>)
    requires Calm(s, ids) && c < |ids| && sid !in s.records
    requires Dispatch(s.tables, c, ids[c], req, sid, []) == Verdict(s.tables, [d])
    ensures Enabled(s, Read(c, req, sid))
    ensures var s' := Step(s, Read(c, req, sid));
            CalmBut(s', ids, c, [d]) && s'.records == s.records && s'.tables == s.tables && s'.boxes == s.boxes
  {
    assert !req.SessionReq? || req.peer !in s.tables.peers;
  }

  /** One turn of a write loop. */
  lemma Turned(ss: seq<State>, es: seq<Event>, ids: seq<PeerId>, c: nat, t: Turn)
      returns (ss': seq<State>, es': seq<Event>)
    requires IsRun(ss, es) && Calm(ss[|es|], ids) && c < |ids| && CanTurn(ss[|es|].boxes[c], t) && !t.Quit?
    ensures IsRun(ss', es') && Calm(ss'[|es'|], ids)
    ensures ss <= ss' && es <= es'
    ensures ss'[|es'|].records == ss[|es|].records && ss'[|es'|].tables == ss[|es|].tables
    ensures ss'[|es'|].boxes == ss[|es|].boxes[c := TakeTurn(ss[|es|].boxes[c], t)]
  {
    ss', es' := Do(ss, es, Write(c, t));
  }

  /** The write loop of `c` empties its queue onto the wire. */
  lemma {:induction false} Drain(ss: seq<State>, es: seq<Event>, ids: seq<PeerId>, c: nat)
      returns (ss': seq<State>, es': seq<Event>)
    requires IsRun(ss, es) && Calm(ss[|es|], ids) && c < |ids| && ss[|es|].boxes[c].writer.Selecting?
    ensures IsRun(ss', es') && Calm(ss'[|es'|], ids)
    ensures ss <= ss' && es <= es'
    ensures ss'[|es'|].boxes[c] == Emptied(ss[|es|].boxes[c])
    ensures ss'[|es'|].records == ss[|es|].records
    decreases |ss[|es|].boxes[c].queue|
  {
    if ss[|es|].boxes[c].queue == [] {
      ss', es' := ss, es;
    } else {
      ss', es' := Turned(ss, es, ids, c, Take);
      ss', es' := Turned(ss', es', ids, c, WriteOk);
      ss', es' := Drain(ss', es', ids, c);
    }
  }

  // ----- a wire that is no prefix -----

  /** `c` pings until its own queue, which nobody empties, is full. */
  lemma {:induction false} PingUntilFull(ss: seq<State>, es: seq<Event>, ids: seq<PeerId>, c: nat, sid: SessionId)
      returns (ss': seq<State>, es': seq<Event>)
    requires IsRun(ss, es) && Calm(ss[|es|], ids) && c < |ids| && sid !in ss[|es|].records
    requires Sound(ss[|es|].boxes[c]) && !ss[|es|].boxes[c].closed && ss[|es|].boxes[c].writer.Selecting?
    ensures IsRun(ss', es') && Calm(ss'[|es'|], ids) && sid !in ss'[|es'|].records
    ensures var b := ss'[|es'|].boxes[c]; Sound(b) && !b.closed && b.writer.Selecting? && |b.queue| == QUEUE_SIZE
    decreases QUEUE_SIZE - |ss[|es|].boxes[c].queue|
  {
    var b := ss[|es|].boxes[c];
    if |b.queue| == QUEUE_SIZE {
      ss', es' := ss, es;
    } else {
      SendKeepsSound(b, Stamp(b, c, Pong));
      ss', es' := Ask(ss, es, ids, c, Ping, sid, Delivery(c, Pong));
      ss', es' := PingUntilFull(ss', es', ids, c, sid);
    }
  }

  /** Once the queue is full: one more ping, and one message taken off. */
  lemma Overflow(ss: seq<State>, es: seq<Event>, a: PeerId, sid: SessionId)
      returns (ss': seq<State>, es': seq<Event>)
    requires IsRun(ss, es) && Calm(ss[|es|], [a]) && sid !in ss[|es|].records
    requires var b := ss[|es|].boxes[0]; b.writer.Selecting? && |b.queue| == QUEUE_SIZE
    ensures IsRun(ss', es') && Calm(ss'[|es'|], [a]) && sid !in ss'[|es'|].records
    ensures ss'[|es'|].boxes[0] == TakeTurn(Hand(ss[|es|].boxes[0], 0, Pong), Take)
  {
    ss', es' := Ask(ss, es, [a], 0, Ping, sid, Delivery(0, Pong));
    ss', es' := Turned(ss', es', [a], 0, Take);
  }

  /** A later reply gets in, and everything is written. */
  lemma SlipIn(ss: seq<State>, es: seq<Event>, a: PeerId, sid: SessionId)
      returns (ss': seq<State>, es': seq<Event>)
    requires IsRun(ss, es) && Calm(ss[|es|], [a]) && sid !in ss[|es|].records && ss[|es|].boxes[0].writer.Writing?
    ensures IsRun(ss', es') && Calm(ss'[|es'|], [a])
    ensures ss'[|es'|].boxes[0]
         == Emptied(TakeTurn(Hand(ss[|es|].boxes[0], 0, Err(DispatchCode, HelloAgain)), WriteOk))
  {
    ss', es' := Ask(ss, es, [a], 0, Hello, sid, Delivery(0, Err(DispatchCode, HelloAgain)));
    ss', es' := Turned(ss', es', [a], 0, WriteOk);
    ss', es' := Drain(ss', es', [a], 0);
  }

  /**
   * What is delivered need not be a prefix of what was handed over. A peer floods itself with pings
   * until a pong finds its queue full and closes it; its write loop takes one message off, a later
   * reply gets in, and the write loop goes on to deliver everything but the lost pong.
   */
  lemma WireSkipsAMessage(a: PeerId, sid: SessionId) returns (ss: seq<State>, es: seq<Event>, before: seq<Letter>)
    ensures IsRun(ss, es) && |ss[|es|].boxes| == 1
    ensures ss[|es|].boxes[0].sent
         == before + [Letter(0, Pong, |before|), Letter(0, Err(DispatchCode, HelloAgain), |before| + 1)]
    ensures ss[|es|].boxes[0].written == before + [Letter(0, Err(DispatchCode, HelloAgain), |before| + 1)]
    ensures !(ss[|es|].boxes[0].written <= ss[|es|].boxes[0].sent)
  {
    ss, es := [Init([])], [];
    ss, es := Join(ss, es, [], a);
    assert [] + [a] == [a];
    SendKeepsSound(NewBox<Letter>(), Letter(0, HelloOk(a), 0));
    StartKeepsSound(Hand(NewBox<Letter>(), 0, HelloOk(a)));
    ss, es := PingUntilFull(ss, es, [a], 0, sid);
    before := ss[|es|].boxes[0].sent;
    LateSendOvertakes(ss[|es|].boxes[0], Letter(0, Pong, |before|), Letter(0, Err(DispatchCode, HelloAgain), |before| + 1));
    ss, es := Overflow(ss, es, a, sid);
    ss, es := SlipIn(ss, es, a, sid);
  }

  // ----- an offer applied to the wrong session -----

  /** `x` opens a session with `y`. */
  lemma Call(ss: seq<State>, es: seq<Event>, ids: seq<PeerId>, x: nat, y: nat, sid: SessionId)
      returns (ss': seq<State>, es': seq<Event>)
    requires IsRun(ss, es) && Calm(ss[|es|], ids) && x < |ids| && y < |ids| && x != y && sid !in ss[|es|].records
    ensures IsRun(ss', es') && Calm(ss'[|es'|], ids)
    ensures ss <= ss' && es <= es'
    ensures |es| < |es'| && Opens(ss[|es|], es'[|es|], sid)
    ensures ss'[|es'|].records == ss[|es|].records[sid := Record(x, y)]
    ensures ss'[|es'|].tables == Opened(ss[|es|].tables, ids[x], ids[y], sid)
    ensures ss'[|es'|].boxes[y] == Hand(ss[|es|].boxes[y], x, Ack(sid, ids[x], [], false))
  {
    CallOwes(ss[|es|], ids, x, y, sid);
    ss', es' := Do(ss, es, Read(x, SessionReq(ids[y]), sid));
    ss', es' := HandOver(ss', es', ids, x, Acks(ids, x, y, sid));
    ss', es' := HandOver(ss', es', ids, x, Acks(ids, x, y, sid)[1..]);
    CalmAnywhere(ss'[|es'|], ids, x);
  }

  function Acks(ids: seq<PeerId>, x: nat, y: nat, sid: SessionId): seq<Delivery<nat>>
    requires x < |ids| && y < |ids|
  {
    [Delivery(x, Ack(sid, ids[y], [], true)), Delivery(y, Ack(sid, ids[x], [], false))]
  }

  lemma CallOwes(s: State, ids: seq<PeerId>, x: nat, y: nat, sid: SessionId)
    requires Calm(s, ids) && x < |ids| && y < |ids| && sid !in s.records
    ensures Opens(s, Read(x, SessionReq(ids[y]), sid), sid)
    ensures var s' := Step(s, Read(x, SessionReq(ids[y]), sid));
            && CalmBut(s', ids, x, Acks(ids, x, y, sid)) && s'.records == s.records[sid := Record(x, y)]
            && s'.tables == Opened(s.tables, ids[x], ids[y], sid) && s'.boxes == s.boxes
  {
  }

  /**
   * The hub can deliver what the relay mishandles: two phones open sessions with the relay, and an
   * offer for the first is on the relay's wire while the second is the current one. The relay, no
   * operation failing, then applies that offer to the second session's connection.
   */
  lemma HubDeliversStrayOffer(r: PeerId, a: PeerId, b: PeerId, s1: SessionId, s2: SessionId, s3: SessionId, sdp: string)
      returns (ss: seq<State>, es: seq<Event>)
    requires r != a && r != b && a != b && s1 != s2 && s1 != s3 && s2 != s3
    ensures IsRun(ss, es) && |ss[|es|].boxes| == 3 && !ss[|es|].boxes[0].closed
    ensures var ms := Bodies(ss[|es|].boxes[0].written);
            && ms == [HelloOk(r), Ack(s1, a, [], false), Ack(s2, b, [], false), PeerSdp(s1, "offer", sdp)]
            && !OffersCurrent(ms)
            && Stream(Smooth(ms)) == ms && !OffersNameLive(Relay.After(Smooth(ms), false))
  {
    ss, es := ReachStrayOffer(r, a, b, s1, s2, s3, sdp);
    var box := ss[|es|].boxes[0];
    EmptiedWrites(box);
    ss, es := Drain(ss, es, [r, a, b], 0);
    var ms := Bodies(ss[|es|].boxes[0].written);
    assert ss[|es|].boxes[0].written == box.sent;
    StrayOffer(ms, r, a, b, s1, s2, sdp);
  }

  lemma StrayOffer(ms: seq<Msg>, r: PeerId, a: PeerId, b: PeerId, s1: SessionId, s2: SessionId, sdp: string)
    requires s1 != s2
    requires ms == [HelloOk(r), Ack(s1, a, [], false), Ack(s2, b, [], false), PeerSdp(s1, "offer", sdp)]
    ensures !OffersCurrent(ms) && Stream(Smooth(ms)) == ms && !OffersNameLive(Relay.After(Smooth(ms), false))
  {
    assert ms[..3] == ms[..2] + [ms[2]];
    CurrentAppend(ms[..2], ms[2]);
    CurrentNecessary(ms, 3);
    SmoothStream(ms);
  }

  lemma ReachTwoCalls(r: PeerId, a: PeerId, b: PeerId, s1: SessionId, s2: SessionId)
      returns (ss: seq<State>, es: seq<Event>)
    requires r != a && r != b && a != b && s1 != s2
    ensures IsRun(ss, es) && Calm(ss[|es|], [r, a, b]) && ss[|es|].records.Keys == {s1, s2}
    ensures s1 in ss[|es|].tables.sessions && ss[|es|].tables.sessions[s1] == Session(a, r)
    ensures ss[|es|].boxes[0]
         == Hand(Hand(Greeting(0, r), 1, Ack(s1, a, [], false)), 2, Ack(s2, b, [], false))
  {
    ss, es := Trio(r, a, b);
    ss, es := Call(ss, es, [r, a, b], 1, 0, s1);
    ss, es := Call(ss, es, [r, a, b], 2, 0, s2);
  }

  lemma ReachStrayOffer(r: PeerId, a: PeerId, b: PeerId, s1: SessionId, s2: SessionId, s3: SessionId, sdp: string)
      returns (ss: seq<State>, es: seq<Event>)
    requires r != a && r != b && a != b && s1 != s2 && s1 != s3 && s2 != s3
    ensures IsRun(ss, es) && Calm(ss[|es|], [r, a, b])
    ensures var box := ss[|es|].boxes[0];
            && !box.closed && box.writer.Selecting? && box.written == [] && box.queue == box.sent
            && box.sent == [Letter(0, HelloOk(r), 0), Letter(1, Ack(s1, a, [], false), 1),
                            Letter(2, Ack(s2, b, [], false), 2), Letter(1, PeerSdp(s1, "offer", sdp), 3)]
  {
    ss, es := ReachTwoCalls(r, a, b, s1, s2);
    ForwardsTo(ss[|es|], [r, a, b], s1, s3, sdp);
    ss, es := Ask(ss, es, [r, a, b], 1, Sdp(s1, "offer", sdp), s3, Delivery(0, PeerSdp(s1, "offer", sdp)));
  }

  lemma ForwardsTo(s: State, ids: seq<PeerId>, s1: SessionId, s3: SessionId, sdp: string)
    requires Calm(s, ids) && |ids| == 3 && s1 in s.tables.sessions && s.tables.sessions[s1] == Session(ids[1], ids[0])
    ensures Dispatch(s.tables, 1, ids[1], Sdp(s1, "offer", sdp), s3, [])
         == Verdict(s.tables, [Delivery(0, PeerSdp(s1, "offer", sdp))])
  {
  }

  lemma Trio(r: PeerId, a: PeerId, b: PeerId) returns (ss: seq<State>, es: seq<Event>)
    requires r != a && r != b && a != b
    ensures IsRun(ss, es) && Calm(ss[|es|], [r, a, b])
    ensures ss[|es|].records == map[] && ss[|es|].tables.sessions == map[]
    ensures ss[|es|].boxes[0] == Greeting(0, r)
  {
    ss, es := [Init([])], [];
    ss, es := Join(ss, es, [], r);
    assert [] + [r] == [r];
    ss, es := Join(ss, es, [r], a);
    assert [r] + [a] == [r, a];
    ss, es := Join(ss, es, [r, a], b);
    assert [r, a] + [b] == [r, a, b];
  }

  // ----- sequential sessions do not suffice past the close -----

  /** Two sessions, the second opened by event `k` when `c` is free of the first: one at a time. */
  lemma TwoInTurn(ss: seq<State>, es: seq<Event>, k: nat, s1: SessionId, s2: SessionId, c: nat)
    requires IsRun(ss, es) && k < |es| && s1 != s2 && Opens(ss[k], es[k], s2)
    requires ss[k].records.Keys == {s1} && ss[|es|].records.Keys == {s1, s2} && Free(ss[k], c)
    ensures OneAtATime(ss, es, |es|, c)
  {
    forall m | 0 <= m < |es| && Calls(ss[m], es[m], c)
      ensures Free(ss[m], c)
    {
      if m != k {
        EarlierIsFirst(ss, es, k, m, s1, s2);
      }
    }
  }

  lemma EarlierIsFirst(ss: seq<State>, es: seq<Event>, k: nat, m: nat, s1: SessionId, s2: SessionId)
    requires IsRun(ss, es) && k < |es| && m < |es| && m != k && s1 != s2
    requires es[m].Read? && Opens(ss[m], es[m], es[m].newSid) && Opens(ss[k], es[k], s2)
    requires ss[k].records.Keys == {s1} && ss[|es|].records.Keys == {s1, s2}
    ensures ss[m].records == map[]
  {
    var sid := es[m].newSid;
    OpeningRecords(ss, es, m, sid);
    OpeningRecords(ss, es, k, s2);
    RunGrows(ss, es, m + 1, |es|);
    assert sid in {s1, s2};
    if k < m {
      RunGrows(ss, es, k, m);
      RunGrows(ss, es, k + 1, m);
      assert false;
    }
    RunGrows(ss, es, m + 1, k);
    RunGrows(ss, es, m, k);
    assert forall x :: x in ss[m].records ==> x in {s1} && x != s1;
  }

  /** The id of a session that an event opens is new, and on record from then on. */
  lemma OpeningRecords(ss: seq<State>, es: seq<Event>, m: nat, sid: SessionId)
    requires IsRun(ss, es) && m < |es| && Opens(ss[m], es[m], sid)
    ensures sid !in ss[m].records && sid in ss[m + 1].records
  {
    RunStep(ss, es, m);
  }

  /** The relay's mailbox while a phone in session `s1` sends candidates: nothing has been written. */
  predicate Iced(b: Box<Letter>, s1: SessionId) {
    && !b.closed && b.writer.Selecting? && b.written == [] && b.queue == b.sent && 2 <= |b.sent| <= QUEUE_SIZE
    && b.sent[0].msg.HelloOk? && TargetAck(b.sent[1].msg) && b.sent[1].msg.session == s1
    && (forall k :: 2 <= k < |b.sent| ==> b.sent[k].msg.PeerIce?)
  }

  /** The relay, connection 0, has one session, `s1`, with the phone that is connection 1. */
  predicate Serving1(s: State, ids: seq<PeerId>, s1: SessionId) {
    && |ids| == 3 && Calm(s, ids) && s.records == map[s1 := Record(1, 0)]
    && s.tables.sessions == map[s1 := Session(ids[1], ids[0])]
  }

  lemma IceForwards(s: State, ids: seq<PeerId>, s1: SessionId, sid: SessionId, cand: string)
    requires Serving1(s, ids, s1)
    ensures Dispatch(s.tables, 1, ids[1], Ice(s1, cand), sid, []) == Verdict(s.tables, [Delivery(0, PeerIce(s1, cand))])
  {
  }

  lemma {:induction false} IceUntilFull(ss: seq<State>, es: seq<Event>, ids: seq<PeerId>, s1: SessionId, sid: SessionId)
      returns (ss': seq<State>, es': seq<Event>)
    requires IsRun(ss, es) && Serving1(ss[|es|], ids, s1) && Iced(ss[|es|].boxes[0], s1) && sid != s1
    ensures IsRun(ss', es') && Serving1(ss'[|es'|], ids, s1) && Iced(ss'[|es'|].boxes[0], s1)
    ensures |ss'[|es'|].boxes[0].queue| == QUEUE_SIZE
    decreases QUEUE_SIZE - |ss[|es|].boxes[0].queue|
  {
    if |ss[|es|].boxes[0].queue| == QUEUE_SIZE {
      ss', es' := ss, es;
    } else {
      IceForwards(ss[|es|], ids, s1, sid, "");
      ss', es' := Ask(ss, es, ids, 1, Ice(s1, ""), sid, Delivery(0, PeerIce(s1, "")));
      ss', es' := IceUntilFull(ss', es', ids, s1, sid);
    }
  }

  lemma ByeLeaves(s: State, ids: seq<PeerId>, s1: SessionId, sid: SessionId)
    requires Serving1(s, ids, s1) && sid != s1
    ensures Enabled(s, Read(1, Bye(s1, ""), sid))
    ensures var s' := Step(s, Read(1, Bye(s1, ""), sid));
            && CalmBut(s', ids, 1, [Delivery(0, PeerGone(s1, ""))])
            && s'.records == s.records && s'.boxes == s.boxes
  {
  }

  /** The phone ends its session: the notice finds the relay's queue full, is lost, and closes it. */
  lemma ByeRefused(ss: seq<State>, es: seq<Event>, ids: seq<PeerId>, s1: SessionId, sid: SessionId)
      returns (ss': seq<State>, es': seq<Event>)
    requires IsRun(ss, es) && Serving1(ss[|es|], ids, s1) && sid != s1
    ensures IsRun(ss', es') && Calm(ss'[|es'|], ids) && ss'[|es'|].records == map[s1 := Record(1, 0)]
    ensures ss'[|es'|].boxes[0] == Hand(ss[|es|].boxes[0], 1, PeerGone(s1, ""))
    ensures Free(ss'[|es'|], 0)
  {
    ByeLeaves(ss[|es|], ids, s1, sid);
    ss', es' := Do(ss, es, Read(1, Bye(s1, ""), sid));
    ss', es' := HandOver(ss', es', ids, 1, [Delivery(0, PeerGone(s1, ""))]);
    CalmAnywhere(ss'[|es'|], ids, 1);
    var b := ss[|es|].boxes[0];
    assert ss'[|es'|].boxes[0].sent == b.sent + [Stamp(b, 1, PeerGone(s1, ""))];
    assert Stamp(b, 1, PeerGone(s1, "")) in ss'[|es'|].boxes[0].sent;
  }

  lemma ReachRefused(r: PeerId, a: PeerId, b: PeerId, s1: SessionId, s2: SessionId)
      returns (ss: seq<State>, es: seq<Event>, full: Box<Letter>)
    requires r != a && r != b && a != b && s1 != s2
    ensures IsRun(ss, es) && Calm(ss[|es|], [r, a, b]) && ss[|es|].records == map[s1 := Record(1, 0)]
    ensures Iced(full, s1) && |full.queue| == QUEUE_SIZE
    ensures ss[|es|].boxes[0] == Hand(full, 1, PeerGone(s1, "")) && Free(ss[|es|], 0)
  {
    ss, es := Trio(r, a, b);
    ss, es := Call(ss, es, [r, a, b], 1, 0, s1);
    ss, es := IceUntilFull(ss, es, [r, a, b], s1, s2);
    full := ss[|es|].boxes[0];
    ss, es := ByeRefused(ss, es, [r, a, b], s1, s2);
  }

  /** What the relay's mailbox comes to: notice and acknowledgement are lost, the offer slips in. */
  function Misled(full: Box<Letter>, s1: SessionId, s2: SessionId, b: PeerId, sdp: string): Box<Letter>
    requires full.writer.Selecting? && |full.queue| == QUEUE_SIZE
  {
    SlippedIn(TakeTurn(Refused(full, s1, s2, b), Take), s2, sdp)
  }

  function Refused(full: Box<Letter>, s1: SessionId, s2: SessionId, b: PeerId): (refused: Box<Letter>)
    requires full.writer.Selecting? && |full.queue| == QUEUE_SIZE
    ensures refused.writer == full.writer && refused.queue == full.queue
  {
    Hand(Hand(full, 1, PeerGone(s1, "")), 2, Ack(s2, b, [], false))
  }

  function SlippedIn(writing: Box<Letter>, s2: SessionId, sdp: string): Box<Letter>
    requires writing.writer.Writing?
  {
    Emptied(TakeTurn(Hand(writing, 2, PeerSdp(s2, "offer", sdp)), WriteOk))
  }

  lemma SlippedInWire(w: Box<Letter>, s2: SessionId, sdp: string)
    requires w.writer.Writing? && w.closed && |w.queue| < QUEUE_SIZE
    ensures var m := SlippedIn(w, s2, sdp);
            && m.closed && m.mark == w.mark
            && m.written == w.written + [w.writer.msg] + w.queue + [Stamp(w, 2, PeerSdp(s2, "offer", sdp))]
  {
    EmptiedWrites(TakeTurn(Hand(w, 2, PeerSdp(s2, "offer", sdp)), WriteOk));
  }

  lemma MisledWire(full: Box<Letter>, s1: SessionId, s2: SessionId, b: PeerId, sdp: string)
    requires Iced(full, s1) && |full.queue| == QUEUE_SIZE
    ensures var m := Misled(full, s1, s2, b, sdp);
            && PastClose(m)
            && Bodies(m.written) == Bodies(full.sent) + [PeerSdp(s2, "offer", sdp)]
  {
    var w := TakeTurn(Refused(full, s1, s2, b), Take);
    assert w.mark == QUEUE_SIZE && w.closed;
    SlippedInWire(w, s2, sdp);
    assert full.queue == [full.queue[0]] + full.queue[1..];
    assert w.written + [w.writer.msg] + w.queue == full.sent;
  }

  /** While only candidates follow the acknowledgement, its session stays current. */
  lemma {:induction false} IcedCurrent(ms: seq<Msg>, s1: SessionId)
    requires 2 <= |ms| && TargetAck(ms[1]) && ms[1].session == s1 && forall k :: 2 <= k < |ms| ==> ms[k].PeerIce?
    ensures Current(ms) == Some(s1)
  {
    if |ms| > 2 {
      IcedCurrent(ms[..|ms| - 1], s1);
    }
  }

  lemma MisledOffer(ms: seq<Msg>, s1: SessionId, s2: SessionId, sdp: string)
    requires s1 != s2 && Current(ms) == Some(s1)
    ensures var wire := ms + [PeerSdp(s2, "offer", sdp)];
            !OffersCurrent(wire) && Stream(Smooth(wire)) == wire && !OffersNameLive(Relay.After(Smooth(wire), false))
  {
    var wire := ms + [PeerSdp(s2, "offer", sdp)];
    assert wire[..|ms|] == ms && wire[|ms|] == PeerSdp(s2, "offer", sdp);
    CurrentNecessary(wire, |ms|);
    SmoothStream(wire);
  }

  /** The second phone calls, and a message is taken off the relay's queue. */
  lemma CallRefused(ss: seq<State>, es: seq<Event>, ids: seq<PeerId>, s1: SessionId, s2: SessionId, full: Box<Letter>)
      returns (ss': seq<State>, es': seq<Event>)
    requires IsRun(ss, es) && |ids| == 3 && Calm(ss[|es|], ids) && ss[|es|].records == map[s1 := Record(1, 0)]
    requires s1 != s2 && full.writer.Selecting? && |full.queue| == QUEUE_SIZE
    requires ss[|es|].boxes[0] == Hand(full, 1, PeerGone(s1, ""))
    ensures IsRun(ss', es') && Calm(ss'[|es'|], ids) && ss <= ss' && es <= es'
    ensures |es| < |es'| && Opens(ss[|es|], es'[|es|], s2)
    ensures ss'[|es'|].records == map[s1 := Record(1, 0), s2 := Record(2, 0)]
    ensures s2 in ss'[|es'|].tables.sessions && ss'[|es'|].tables.sessions[s2] == Session(ids[2], ids[0])
    ensures ss'[|es'|].boxes[0] == TakeTurn(Refused(full, s1, s2, ids[2]), Take)
  {
    ss', es' := Call(ss, es, ids, 2, 0, s2);
    ss', es' := Turned(ss', es', ids, 0, Take);
  }

  /** The message being written is written, and then all that is queued. */
  lemma WriteOut(ss: seq<State>, es: seq<Event>, ids: seq<PeerId>, c: nat) returns (ss': seq<State>, es': seq<Event>)
    requires IsRun(ss, es) && Calm(ss[|es|], ids) && c < |ids| && ss[|es|].boxes[c].writer.Writing?
    ensures IsRun(ss', es') && Calm(ss'[|es'|], ids) && ss <= ss' && es <= es'
    ensures ss'[|es'|].records == ss[|es|].records
    ensures ss'[|es'|].boxes[c] == Emptied(TakeTurn(ss[|es|].boxes[c], WriteOk))
  {
    ss', es' := Turned(ss, es, ids, c, WriteOk);
    ss', es' := Drain(ss', es', ids, c);
  }

  /** Its offer gets in, although its acknowledgement did not, and everything is written. */
  lemma OfferSlipsIn(ss: seq<State>, es: seq<Event>, ids: seq<PeerId>, s2: SessionId, s3: SessionId, sdp: string)
      returns (ss': seq<State>, es': seq<Event>)
    requires IsRun(ss, es) && |ids| == 3 && Calm(ss[|es|], ids) && s3 !in ss[|es|].records
    requires s2 in ss[|es|].tables.sessions && ss[|es|].tables.sessions[s2] == Session(ids[2], ids[0])
    requires ss[|es|].boxes[0].writer.Writing?
    ensures IsRun(ss', es') && Calm(ss'[|es'|], ids) && ss <= ss' && es <= es'
    ensures ss'[|es'|].records == ss[|es|].records
    ensures ss'[|es'|].boxes[0] == SlippedIn(ss[|es|].boxes[0], s2, sdp)
  {
    OfferForwards(ss[|es|], ids, s2, s3, sdp);
    ss', es' := Ask(ss, es, ids, 2, Sdp(s2, "offer", sdp), s3, Delivery(0, PeerSdp(s2, "offer", sdp)));
    ss', es' := WriteOut(ss', es', ids, 0);
  }

  lemma OfferForwards(s: State, ids: seq<PeerId>, s2: SessionId, s3: SessionId, sdp: string)
    requires Calm(s, ids) && |ids| == 3 && s2 in s.tables.sessions && s.tables.sessions[s2] == Session(ids[2], ids[0])
    ensures Dispatch(s.tables, 2, ids[2], Sdp(s2, "offer", sdp), s3, [])
         == Verdict(s.tables, [Delivery(0, PeerSdp(s2, "offer", sdp))])
  {
  }

  /**
   * Sequential sessions do not suffice once the relay's wire is past its close. A phone fills the
   * relay's queue with candidates and says bye; the notice is lost and closes the relay, and so is
   * the acknowledgement of the next phone's session, but that phone's offer gets in behind a message
   * that the write loop takes off. The relay, which never learnt of the second session, applies the
   * offer to the first one's connection.
   */
  lemma SequentialDoesNotSuffice(r: PeerId, a: PeerId, b: PeerId, s1: SessionId, s2: SessionId, s3: SessionId, sdp: string)
      returns (ss: seq<State>, es: seq<Event>)
    requires r != a && r != b && a != b && s1 != s2 && s1 != s3 && s2 != s3
    ensures IsRun(ss, es) && |ss[|es|].boxes| == 3
    ensures OneAtATime(ss, es, |es|, 0)
    ensures forall sid :: sid in ss[|es|].records ==> ss[|es|].records[sid].initiator != 0
    ensures PastClose(ss[|es|].boxes[0])
    ensures var wire := Bodies(ss[|es|].boxes[0].written);
            !OffersCurrent(wire) && Stream(Smooth(wire)) == wire && !OffersNameLive(Relay.After(Smooth(wire), false))
  {
    var full;
    ss, es, full := ReachRefused(r, a, b, s1, s2);
    var k := |es|;
    ss, es := CallRefused(ss, es, [r, a, b], s1, s2, full);
    ss, es := OfferSlipsIn(ss, es, [r, a, b], s2, s3, sdp);
    TwoInTurn(ss, es, k, s1, s2, 0);
    MisledRelay(full, s1, s2, b, sdp);
  }

  lemma MisledRelay(full: Box<Letter>, s1: SessionId, s2: SessionId, b: PeerId, sdp: string)
    requires s1 != s2 && Iced(full, s1) && |full.queue| == QUEUE_SIZE
    ensures PastClose(Misled(full, s1, s2, b, sdp))
    ensures var wire := Bodies(Misled(full, s1, s2, b, sdp).written);
            !OffersCurrent(wire) && Stream(Smooth(wire)) == wire && !OffersNameLive(Relay.After(Smooth(wire), false))
  {
    MisledWire(full, s1, s2, b, sdp);
    IcedCurrent(Bodies(full.sent), s1);
    MisledOffer(Bodies(full.sent), s1, s2, sdp);
  }
}
