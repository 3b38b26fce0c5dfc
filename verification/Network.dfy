/**
 * The signaling server as a concurrent program: any number of connections, each a serving thread
 * with its read loop and a write loop, interleaved at the granularity of one locked hub operation,
 * one `Send`, one turn of a write loop. A connection object is an index into `conns` and `boxes`.
 */
module Network {
  import opened Sequences
  import opened Messages
  import opened HubTables
  import opened Mailbox

  /**
   * Where a connection's serving thread is. `Greeting`: registered, loops not started. `Serving`:
   * the read loop runs. `Drained`: the read loop has returned. `Left`: `Unregister` has run.
   */
  datatype Phase = Arriving | Rejected | Greeting | Serving | Drained | Left

  /**
   * `outbox` holds the sends that follow the thread's last locked step and are still to be made.
   * `performed` (sends made) and `routed` (sdp and ice dispatched without error) are histories.
   * The read loop runs between the two parts of the serving thread, so one outbox serves both.
   */
  datatype Conn = Conn(
    id: PeerId, phase: Phase, outbox: seq<Delivery<nat>>, cancelled: bool, woken: bool,
    performed: seq<Delivery<nat>>, routed: seq<Request>)

  /**
   * A message, the connection whose thread handed it over and, to tell hand-overs of equal
   * messages apart, how many messages its receiver had been handed before.
   */
  datatype Letter = Letter(from: nat, msg: Msg, nth: nat)

  function Stamp(b: Box<Letter>, from: nat, msg: Msg): Letter {
    Letter(from, msg, |b.sent|)
  }

  function Hand(b: Box<Letter>, from: nat, msg: Msg): Box<Letter> {
    Send(b, Stamp(b, from, msg))
  }

  /** The connection objects a session was opened between. */
  datatype Record = Record(initiator: nat, target: nat)

  /** The locked step that removed a session, and the connection whose thread took it. */
  datatype Cause = ByBye(remover: nat, reason: string) | ByDisconnect(remover: nat)

  /** `records` and `removed` are histories of the session table. */
  datatype State = State(
    conns: seq<Conn>, boxes: seq<Box<Letter>>, tables: Tables<nat>, ice: seq<IceServer>,
    records: map<SessionId, Record>, removed: map<SessionId, Cause>)

  /** `newSid` is the generated id, `order` the order in which `Unregister` ranges over the sessions. */
  datatype Event =
    | Arrive(id: PeerId)
    | Register(c: nat)
    | Perform(c: nat)
    | Start(c: nat)
    | Read(c: nat, req: Request, newSid: SessionId)
    | ReadEnd(c: nat)
    | Cancel(c: nat)
    | Wake(c: nat)
    | Write(c: nat, turn: Turn)
    | Leave(c: nat, order: seq<SessionId>)

  function Init(ice: seq<IceServer>): State {
    State([], [], Tables(map[], map[]), ice, map[], map[])
  }

  predicate Known(s: State, c: nat) {
    c < |s.conns| && c < |s.boxes|
  }

  predicate Enabled(s: State, e: Event) {
    match e
    case Arrive(_) => |s.boxes| == |s.conns|
    case Register(c) => Known(s, c) && s.conns[c].phase == Arriving
    case Perform(c) => Known(s, c) && s.conns[c].outbox != []
    case Start(c) => Known(s, c) && s.conns[c].phase == Greeting && s.conns[c].outbox == []
    case Read(c, _, newSid) =>
      Known(s, c) && s.conns[c].phase == Serving && s.conns[c].outbox == [] && newSid !in s.records
    case ReadEnd(c) => Known(s, c) && s.conns[c].phase == Serving && s.conns[c].outbox == []
    case Cancel(c) => Known(s, c)
    case Wake(c) =>
      Known(s, c) && (s.conns[c].phase == Serving || s.conns[c].phase == Drained)
      && (s.conns[c].cancelled || s.boxes[c].closed)
    case Write(c, turn) =>
      Known(s, c) && CanTurn(s.boxes[c], turn) && (turn.Quit? ==> turn.done == s.conns[c].cancelled)
    case Leave(c, order) =>
      Known(s, c) && s.conns[c].phase == Drained && s.conns[c].woken && s.boxes[c].writer.Stopped?
      && Enumerates(order, s.tables.sessions.Keys)
  }

  function Step(s: State, e: Event): State
    requires Enabled(s, e)
  {
    match e
    case Arrive(id) =>
      s.(conns := s.conns + [Conn(id, Arriving, [], false, false, [], [])], boxes := s.boxes + [NewBox()])
    case Register(c) => RegisterStep(s, c)
    case Perform(c) => PerformStep(s, c)
    case Start(c) =>
      s.(conns := s.conns[c := s.conns[c].(phase := Serving)],
         boxes := s.boxes[c := s.boxes[c].(writer := Selecting)])
    case Read(c, req, newSid) => ReadStep(s, c, req, newSid)
    case ReadEnd(c) => s.(conns := s.conns[c := s.conns[c].(phase := Drained, cancelled := true)])
    case Cancel(c) => s.(conns := s.conns[c := s.conns[c].(cancelled := true)])
    case Wake(c) => s.(conns := s.conns[c := s.conns[c].(woken := true, cancelled := true)])
    case Write(c, turn) => s.(boxes := s.boxes[c := TakeTurn(s.boxes[c], turn)])
    case Leave(c, order) => LeaveStep(s, c, order)
  }

  /** `Register`: a taken id rejects the newcomer, which then never reaches `run`. */
  function RegisterStep(s: State, c: nat): State
    requires c < |s.conns|
  {
    var k := s.conns[c];
    if k.id in s.tables.peers then s.(conns := s.conns[c := k.(phase := Rejected)])
    else s.(conns := s.conns[c := k.(phase := Greeting, outbox := [Delivery(c, HelloOk(k.id))])],
            tables := Registered(s.tables, k.id, c))
  }

  /** The thread of `c` makes the next `Send` it owes, outside the lock. */
  function PerformStep(s: State, c: nat): State
    requires c < |s.conns| && s.conns[c].outbox != []
  {
    var k := s.conns[c];
    var d := k.outbox[0];
    s.(conns := s.conns[c := k.(outbox := k.outbox[1..], performed := k.performed + [d])],
       boxes := if d.to < |s.boxes| then s.boxes[d.to := Hand(s.boxes[d.to], c, d.msg)] else s.boxes)
  }

  /** The read loop of `c` takes one frame through its locked step. */
  function ReadStep(s: State, c: nat, req: Request, newSid: SessionId): State
    requires c < |s.conns|
  {
    var k := s.conns[c];
    var v := Dispatch(s.tables, c, k.id, req, newSid, s.ice);
    var routes := (req.Sdp? || req.Ice?) && OtherPeer(s.tables, req.session, k.id).Ok?;
    s.(conns := s.conns[c := k.(outbox := v.sends, routed := if routes then k.routed + [req] else k.routed)],
       tables := v.tables,
       records := if req.SessionReq? && req.peer in s.tables.peers
                 then s.records[newSid := Record(c, s.tables.peers[req.peer])] else s.records,
       removed := if req.Bye? && req.session in s.tables.sessions
                  then s.removed[req.session := ByBye(c, req.reason)] else s.removed)
  }

  /** After both loops have ended: the locked part of `Unregister`. */
  function LeaveStep(s: State, c: nat, order: seq<SessionId>): State
    requires c < |s.conns|
  {
    var k := s.conns[c];
    s.(conns := s.conns[c := k.(phase := Left, outbox := Notices(order, s.tables, k.id))],
       tables := Unregistered(s.tables, k.id),
       removed := s.removed + map sid | sid in s.tables.sessions && Involves(s.tables.sessions[sid], k.id) :: ByDisconnect(c))
  }

  /** One interleaving, from the empty server; every prefix of a run is a run. */
  predicate IsRun(ss: seq<State>, es: seq<Event>) {
    && |ss| == |es| + 1
    && ss[0] == Init(ss[0].ice)
    && forall k :: 0 <= k < |es| ==> Enabled(ss[k], es[k]) && ss[k + 1] == Step(ss[k], es[k])
  }

  /** Everything the thread of a connection has decided to send, in program order. */
  function Plan(k: Conn): seq<Delivery<nat>> {
    k.performed + k.outbox
  }

  /** What `from` has decided to send `to` about session `sid`. */
  function Lane(s: State, sid: SessionId, from: nat, to: nat): seq<Msg>
    requires from < |s.conns|
  {
    Keep(Naming(sid), To(Plan(s.conns[from]), to))
  }

  /** The letters that came from `from`. */
  function From(letters: seq<Letter>, from: nat): seq<Msg> {
    if letters == [] then []
    else
      var k := |letters| - 1;
      From(letters[..k], from) + (if letters[k].from == from then [letters[k].msg] else [])
  }

  function Bodies(letters: seq<Letter>): (ms: seq<Msg>)
    ensures |ms| == |letters|
  {
    seq(|letters|, k requires 0 <= k < |letters| => letters[k].msg)
  }

  predicate Member(r: Record, c: nat) {
    r.initiator == c || r.target == c
  }

  /** `a` and `b` are the two ends of the session, in either order. */
  predicate Counterparts(r: Record, a: nat, b: nat) {
    (r.initiator == a && r.target == b) || (r.target == a && r.initiator == b)
  }

  predicate Enrolled(p: Phase) {
    p == Greeting || p == Serving || p == Drained
  }
}
