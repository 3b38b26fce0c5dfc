/**
 * The relay's session loop over an arbitrary stream of frames and an arbitrary pattern of failing
 * operations. The trace records every resource taken and released and everything sent.
 */
module Relay {
  import opened Basics
  import opened Sequences
  import opened Messages

  /** A PeerConnection: the serial number of its creation and the session id its callbacks captured. */
  datatype Pc = Pc(id: nat, session: SessionId)

  /** Whether each operation that the handling of one frame may attempt succeeds. */
  datatype Ops = Ops(
    setup: bool, setRemote: bool, startCamera: bool, addTrack: bool, createAnswer: bool, setLocal: bool,
    write: bool, decodeCand: bool, addCand: bool)

  /**
   * What happens next: a frame that is no envelope, a decoded frame, or a candidate gathered by
   * the `pc`-th PeerConnection made, closed or not. The read error that ends the loop is the end
   * of the sequence.
   */
  datatype Input = Garbage | Frame(msg: Msg, ops: Ops) | Gathered(pc: nat)

  datatype Effect =
    | PcOpened(pc: Pc)
    | PcClosed(id: nat)
    | CameraStarted(cam: nat)
    | CameraClosed(cam: nat)
    | TrackAdded(id: nat, cam: nat)
    | OfferApplied(id: nat, named: SessionId)
    | AnswerSent(id: nat, session: SessionId)
    | CandidateApplied(id: nat)
    | CandidateSent(id: nat, session: SessionId)

  /** The loop's variables, the connections made so far, the number of cameras started, the trace. */
  datatype Loop = Loop(
    pc: Option<Pc>, session: SessionId, camera: Option<nat>, made: seq<Pc>, cams: nat, trace: seq<Effect>)

  const START := Loop(None, "", None, [], 0, [])

  // ----- what the loop computes -----

  function ClosePc(l: Loop): Loop {
    if l.pc.None? then l else l.(pc := None, trace := l.trace + [PcClosed(l.pc.value.id)])
  }

  function CloseCamera(l: Loop): Loop {
    if l.camera.None? then l else l.(camera := None, trace := l.trace + [CameraClosed(l.camera.value)])
  }

  function OpenPc(l: Loop): Loop {
    var pc := Pc(|l.made|, l.session);
    l.(pc := Some(pc), made := l.made + [pc], trace := l.trace + [PcOpened(pc)])
  }

  function OnAck(l: Loop, m: Msg, ops: Ops): Loop
    requires m.Ack?
  {
    if m.initiator then l
    else
      var c := CloseCamera(ClosePc(l)).(session := m.session);
      if ops.setup then OpenPc(c) else c
  }

  function StartCamera(l: Loop): Loop {
    l.(camera := Some(l.cams), cams := l.cams + 1, trace := l.trace + [CameraStarted(l.cams)])
  }

  /** The camera is started at most once per PeerConnection, and dropped if its track is refused. */
  function EnsureCamera(l: Loop, configured: bool, ops: Ops): Loop
    requires l.pc.Some?
  {
    if !configured || l.camera.Some? || !ops.startCamera then l
    else
      var c := StartCamera(l);
      if ops.addTrack then c.(trace := c.trace + [TrackAdded(l.pc.value.id, l.cams)]) else CloseCamera(c)
  }

  function OnSdp(l: Loop, m: Msg, configured: bool, ops: Ops): Loop
    requires m.PeerSdp?
  {
    if l.pc.None? || m.role != "offer" || !ops.setRemote then l
    else
      var o := EnsureCamera(l.(trace := l.trace + [OfferApplied(l.pc.value.id, m.session)]), configured, ops);
      if ops.createAnswer && ops.setLocal && ops.write
      then o.(trace := o.trace + [AnswerSent(o.pc.value.id, o.session)]) else o
  }

  function OnIce(l: Loop, ops: Ops): Loop {
    if l.pc.Some? && ops.decodeCand && ops.addCand
    then l.(trace := l.trace + [CandidateApplied(l.pc.value.id)]) else l
  }

  function OnInput(l: Loop, i: Input, configured: bool): Loop {
    match i
    case Garbage => l
    case Gathered(k) =>
      if k < |l.made| then l.(trace := l.trace + [CandidateSent(k, l.made[k].session)]) else l
    case Frame(m, ops) =>
      match m
      case Ack(_, _, _, _) => OnAck(l, m, ops)
      case PeerSdp(_, _, _) => OnSdp(l, m, configured, ops)
      case PeerIce(_, _) => OnIce(l, ops)
      case PeerGone(_, _) => CloseCamera(ClosePc(l))
      case _ => l
  }

  function After(inputs: seq<Input>, configured: bool): Loop {
    if inputs == [] then START
    else OnInput(After(inputs[..|inputs| - 1], configured), inputs[|inputs| - 1], configured)
  }

  /** The deferred clean-up when the loop returns. */
  function Return(l: Loop): Loop {
    ClosePc(CloseCamera(l))
  }

  // ----- the loop -----

  /** Before an answer is made: the camera, if one is configured and none is running, and its track. */
  method StartVideo(
      pc: Pc, sessionId: SessionId, camera: Option<nat>, made: seq<Pc>, cams: nat, trace: seq<Effect>,
      configured: bool, ops: Ops)
    returns (camera': Option<nat>, cams': nat, trace': seq<Effect>)
    ensures Loop(Some(pc), sessionId, camera', made, cams', trace')
         == EnsureCamera(Loop(Some(pc), sessionId, camera, made, cams, trace), configured, ops)
  {
    camera', cams', trace' := camera, cams, trace;
    if configured && camera.None? {
      if ops.startCamera {
        camera' := Some(cams);
        trace' := trace' + [CameraStarted(cams)];
        cams' := cams + 1;
        if !ops.addTrack {
          trace' := trace' + [CameraClosed(camera'.value)];
          camera' := None;
        } else {
          trace' := trace' + [TrackAdded(pc.id, camera'.value)];
        }
      }
    }
  }

  /** Closes the connection and then the camera, whichever are held. */
  method DropBoth(pc: Option<Pc>, sessionId: SessionId, camera: Option<nat>, made: seq<Pc>, cams: nat, trace: seq<Effect>)
    returns (trace': seq<Effect>)
    ensures Loop(None, sessionId, None, made, cams, trace')
         == CloseCamera(ClosePc(Loop(pc, sessionId, camera, made, cams, trace)))
  {
    trace' := trace;
    if pc.Some? {
      trace' := trace' + [PcClosed(pc.value.id)];
    }
    if camera.Some? {
      trace' := trace' + [CameraClosed(camera.value)];
    }
  }

  /** The loop itself; it ends with the read error that follows `inputs`. */
  method RunWsLoop(inputs: seq<Input>, configured: bool) returns (trace: seq<Effect>)
    ensures trace == Return(After(inputs, configured)).trace
  {
    var pc: Option<Pc> := None;
    var sessionId: SessionId := "";
    var camera: Option<nat> := None;
    var made: seq<Pc> := [];
    var cams: nat := 0;
    trace := [];
    var n := 0;
    while n < |inputs|
      invariant n <= |inputs|
      invariant Loop(pc, sessionId, camera, made, cams, trace) == After(inputs[..n], configured)
    {
      assert inputs[..n + 1][..n] == inputs[..n];
      var input := inputs[n];
      n := n + 1;
      if input.Garbage? {
        continue;
      }
      if input.Gathered? {
        if input.pc < |made| {
          trace := trace + [CandidateSent(input.pc, made[input.pc].session)];
        }
        continue;
      }
      var ops := input.ops;
      match input.msg {
        case Ack(session, _, _, initiator) =>
          if initiator {
            continue;
          }
          trace := DropBoth(pc, sessionId, camera, made, cams, trace);
          pc, camera := None, None;
          sessionId := session;
          if !ops.setup {
            continue;
          }
          var newPc := Pc(|made|, sessionId);
          made := made + [newPc];
          trace := trace + [PcOpened(newPc)];
          pc := Some(newPc);
        case PeerSdp(session, role, _) =>
          if pc.None? {
            continue;
          }
          if role != "offer" {
            continue;
          }
          if !ops.setRemote {
            continue;
          }
          trace := trace + [OfferApplied(pc.value.id, session)];
          camera, cams, trace := StartVideo(pc.value, sessionId, camera, made, cams, trace, configured, ops);
          if !ops.createAnswer {
            continue;
          }
          if !ops.setLocal {
            continue;
          }
          if ops.write {
            trace := trace + [AnswerSent(pc.value.id, sessionId)];
          }
        case PeerIce(_, _) =>
          if pc.None? {
            continue;
          }
          if !ops.decodeCand {
            continue;
          }
          if ops.addCand {
            trace := trace + [CandidateApplied(pc.value.id)];
          }
        case PeerGone(_, _) =>
          trace := DropBoth(pc, sessionId, camera, made, cams, trace);
          pc, camera := None, None;
        case _ =>
      }
    }
    assert inputs[..n] == inputs;
    if camera.Some? {
      trace := trace + [CameraClosed(camera.value)];
    }
    if pc.Some? {
      trace := trace + [PcClosed(pc.value.id)];
    }
  }

  // ----- the ledger -----

  function Opens(id: nat): Effect -> bool {
    (e: Effect) => e.PcOpened? && e.pc.id == id
  }

  function Closes(id: nat): Effect -> bool {
    (e: Effect) => e.PcClosed? && e.id == id
  }

  function Starts(cam: nat): Effect -> bool {
    (e: Effect) => e.CameraStarted? && e.cam == cam
  }

  function Stops(cam: nat): Effect -> bool {
    (e: Effect) => e.CameraClosed? && e.cam == cam
  }

  function Offers(id: nat): Effect -> bool {
    (e: Effect) => e.OfferApplied? && e.id == id
  }

  function Answers(id: nat): Effect -> bool {
    (e: Effect) => e.AnswerSent? && e.id == id
  }

  function Count(f: Effect -> bool, trace: seq<Effect>): nat {
    |Keep(f, trace)|
  }

  lemma CountAppend(f: Effect -> bool, trace: seq<Effect>, e: Effect)
    ensures Count(f, trace + [e]) == Count(f, trace) + (if f(e) then 1 else 0)
  {
    KeepAppend(f, trace, e);
  }

  /** Counts after one more effect, for every connection and camera at once. */
  lemma CountsAppend(trace: seq<Effect>, e: Effect)
    ensures forall k :: Count(Opens(k), trace + [e]) == Count(Opens(k), trace) + (if Opens(k)(e) then 1 else 0)
    ensures forall k :: Count(Closes(k), trace + [e]) == Count(Closes(k), trace) + (if Closes(k)(e) then 1 else 0)
    ensures forall k :: Count(Starts(k), trace + [e]) == Count(Starts(k), trace) + (if Starts(k)(e) then 1 else 0)
    ensures forall k :: Count(Stops(k), trace + [e]) == Count(Stops(k), trace) + (if Stops(k)(e) then 1 else 0)
    ensures forall k :: Count(Offers(k), trace + [e]) == Count(Offers(k), trace) + (if Offers(k)(e) then 1 else 0)
    ensures forall k :: Count(Answers(k), trace + [e]) == Count(Answers(k), trace) + (if Answers(k)(e) then 1 else 0)
  {
    forall k
      ensures Count(Opens(k), trace + [e]) == Count(Opens(k), trace) + (if Opens(k)(e) then 1 else 0)
    {
      CountAppend(Opens(k), trace, e);
    }
    forall k
      ensures Count(Closes(k), trace + [e]) == Count(Closes(k), trace) + (if Closes(k)(e) then 1 else 0)
    {
      CountAppend(Closes(k), trace, e);
    }
    forall k
      ensures Count(Starts(k), trace + [e]) == Count(Starts(k), trace) + (if Starts(k)(e) then 1 else 0)
    {
      CountAppend(Starts(k), trace, e);
    }
    forall k
      ensures Count(Stops(k), trace + [e]) == Count(Stops(k), trace) + (if Stops(k)(e) then 1 else 0)
    {
      CountAppend(Stops(k), trace, e);
    }
    forall k
      ensures Count(Offers(k), trace + [e]) == Count(Offers(k), trace) + (if Offers(k)(e) then 1 else 0)
    {
      CountAppend(Offers(k), trace, e);
    }
    forall k
      ensures Count(Answers(k), trace + [e]) == Count(Answers(k), trace) + (if Answers(k)(e) then 1 else 0)
    {
      CountAppend(Answers(k), trace, e);
    }
  }

  ghost predicate NoPcLive(trace: seq<Effect>) {
    forall k: nat :: Count(Opens(k), trace) == Count(Closes(k), trace)
  }

  ghost predicate NoCameraLive(trace: seq<Effect>) {
    forall k: nat :: Count(Starts(k), trace) == Count(Stops(k), trace)
  }

  /** Nothing is claimed while its like is held: this is what frees the fixed loopback port. */
  ghost predicate ExclusiveAt(trace: seq<Effect>, j: int)
    requires 0 <= j < |trace|
  {
    && (trace[j].PcOpened? ==> NoPcLive(trace[..j]))
    && (trace[j].CameraStarted? ==> NoCameraLive(trace[..j]))
  }

  ghost predicate Exclusive(trace: seq<Effect>) {
    forall j :: 0 <= j < |trace| ==> ExclusiveAt(trace, j)
  }

  lemma ExclusiveAppend(trace: seq<Effect>, e: Effect)
    requires Exclusive(trace)
    requires e.PcOpened? ==> NoPcLive(trace)
    requires e.CameraStarted? ==> NoCameraLive(trace)
    ensures Exclusive(trace + [e])
  {
    var t := trace + [e];
    forall j | 0 <= j < |t|
      ensures ExclusiveAt(t, j)
    {
      if j < |trace| {
        assert ExclusiveAt(trace, j) && t[..j] == trace[..j];
      } else {
        assert t[..j] == trace;
      }
    }
  }

  /** What the loop keeps about connections. */
  ghost predicate PcsTidy(l: Loop) {
    && (forall k :: 0 <= k < |l.made| ==> l.made[k].id == k)
    && (l.pc.Some? ==> l.pc.value in l.made && l.pc.value.session == l.session)
    && (forall k: nat :: Count(Opens(k), l.trace) == if k < |l.made| then 1 else 0)
    && (forall k: nat ::
          Count(Closes(k), l.trace) == if k < |l.made| && (l.pc.Some? ==> l.pc.value.id != k) then 1 else 0)
  }

  /** What the loop keeps about cameras: a live one feeds the live connection. */
  ghost predicate CamerasTidy(l: Loop) {
    && (l.camera.Some? ==> l.camera.value < l.cams && l.pc.Some? && TrackAdded(l.pc.value.id, l.camera.value) in l.trace)
    && (forall k: nat :: Count(Starts(k), l.trace) == if k < l.cams then 1 else 0)
    && (forall k: nat ::
          Count(Stops(k), l.trace) == if k < l.cams && l.camera != Some(k) then 1 else 0)
  }

  /** Everything a connection says carries the session id it was made for. */
  predicate Coherent(l: Loop) {
    forall e <- l.trace ::
      && (e.PcOpened? ==> e.pc in l.made)
      && (e.AnswerSent? ==> Pc(e.id, e.session) in l.made)
      && (e.CandidateSent? ==> Pc(e.id, e.session) in l.made)
  }

  ghost predicate Answered(l: Loop) {
    forall k: nat :: Count(Answers(k), l.trace) <= Count(Offers(k), l.trace)
  }

  ghost predicate Tidy(l: Loop) {
    PcsTidy(l) && CamerasTidy(l) && Exclusive(l.trace) && Coherent(l) && Answered(l)
  }

  lemma ClosePcTidy(l: Loop)
    requires PcsTidy(l) && Exclusive(l.trace) && Coherent(l) && Answered(l)
    ensures var l' := ClosePc(l);
            && PcsTidy(l') && Exclusive(l'.trace) && Coherent(l') && Answered(l')
            && (forall k: nat :: Count(Starts(k), l'.trace) == Count(Starts(k), l.trace))
            && (forall k: nat :: Count(Stops(k), l'.trace) == Count(Stops(k), l.trace))
            && l'.camera == l.camera && l'.cams == l.cams && l'.pc == None
  {
    if l.pc.Some? {
      var e := PcClosed(l.pc.value.id);
      CountsAppend(l.trace, e);
      ExclusiveAppend(l.trace, e);
    }
  }

  /** The camera half of tidiness without the live connection. */
  ghost predicate CamerasCounted(l: Loop) {
    && (l.camera.Some? ==> l.camera.value < l.cams)
    && (forall k: nat :: Count(Starts(k), l.trace) == if k < l.cams then 1 else 0)
    && (forall k: nat ::
          Count(Stops(k), l.trace) == if k < l.cams && l.camera != Some(k) then 1 else 0)
  }

  lemma CloseCameraTidy(l: Loop)
    requires PcsTidy(l) && CamerasCounted(l) && Exclusive(l.trace) && Coherent(l) && Answered(l)
    ensures Tidy(CloseCamera(l)) && CloseCamera(l).camera == None && CloseCamera(l).pc == l.pc
  {
    if l.camera.Some? {
      var e := CameraClosed(l.camera.value);
      CountsAppend(l.trace, e);
      ExclusiveAppend(l.trace, e);
    }
  }

  lemma OpenPcTidy(l: Loop)
    requires Tidy(l) && l.pc == None && l.camera == None
    ensures Tidy(OpenPc(l))
  {
    var pc := Pc(|l.made|, l.session);
    var e := PcOpened(pc);
    CountsAppend(l.trace, e);
    ExclusiveAppend(l.trace, e);
    assert OpenPc(l).made[|l.made|] == pc;
  }

  lemma OnAckTidy(l: Loop, m: Msg, ops: Ops)
    requires Tidy(l) && m.Ack?
    ensures Tidy(OnAck(l, m, ops))
  {
    if !m.initiator {
      ClosePcTidy(l);
      CloseCameraTidy(ClosePc(l));
      var c := CloseCamera(ClosePc(l)).(session := m.session);
      assert Tidy(c);
      if ops.setup {
        OpenPcTidy(c);
      }
    }
  }

  /** The same offers and answers have been counted. */
  ghost predicate SameTalk(l: Loop, l': Loop) {
    forall k: nat ::
      && Count(Offers(k), l'.trace) == Count(Offers(k), l.trace)
      && Count(Answers(k), l'.trace) == Count(Answers(k), l.trace)
  }

  lemma StartCameraTidy(l: Loop)
    requires Tidy(l) && l.pc.Some? && l.camera.None?
    ensures var c := StartCamera(l);
            PcsTidy(c) && CamerasCounted(c) && Exclusive(c.trace) && Coherent(c) && Answered(c) && SameTalk(l, c)
  {
    CountsAppend(l.trace, CameraStarted(l.cams));
    ExclusiveAppend(l.trace, CameraStarted(l.cams));
  }

  lemma AddTrackTidy(c: Loop)
    requires PcsTidy(c) && CamerasCounted(c) && Exclusive(c.trace) && Coherent(c) && Answered(c)
    requires c.pc.Some? && c.camera.Some?
    ensures var t := c.(trace := c.trace + [TrackAdded(c.pc.value.id, c.camera.value)]); Tidy(t) && SameTalk(c, t)
  {
    var e := TrackAdded(c.pc.value.id, c.camera.value);
    CountsAppend(c.trace, e);
    ExclusiveAppend(c.trace, e);
  }

  lemma EnsureCameraTidy(l: Loop, configured: bool, ops: Ops)
    requires Tidy(l) && l.pc.Some?
    ensures Tidy(EnsureCamera(l, configured, ops)) && SameTalk(l, EnsureCamera(l, configured, ops))
    ensures EnsureCamera(l, configured, ops).pc == l.pc && EnsureCamera(l, configured, ops).session == l.session
  {
    if configured && l.camera.None? && ops.startCamera {
      StartCameraTidy(l);
      var c := StartCamera(l);
      if ops.addTrack {
        AddTrackTidy(c);
      } else {
        CountsAppend(c.trace, CameraClosed(l.cams));
        CloseCameraTidy(c);
      }
    }
  }

  /** Something said that takes and releases nothing. */
  lemma SayTidy(l: Loop, e: Effect)
    requires Tidy(l) && (e.OfferApplied? || e.AnswerSent? || e.CandidateApplied? || e.CandidateSent?)
    requires e.AnswerSent? || e.CandidateSent? ==> Pc(e.id, e.session) in l.made
    requires e.AnswerSent? ==> Count(Answers(e.id), l.trace) < Count(Offers(e.id), l.trace)
    ensures Tidy(l.(trace := l.trace + [e]))
    ensures e.OfferApplied? ==> Count(Answers(e.id), l.trace + [e]) < Count(Offers(e.id), l.trace + [e])
  {
    CountsAppend(l.trace, e);
    ExclusiveAppend(l.trace, e);
  }

  lemma OnSdpTidy(l: Loop, m: Msg, configured: bool, ops: Ops)
    requires Tidy(l) && m.PeerSdp?
    ensures Tidy(OnSdp(l, m, configured, ops))
  {
    if l.pc.Some? && m.role == "offer" && ops.setRemote {
      var id := l.pc.value.id;
      SayTidy(l, OfferApplied(id, m.session));
      var a := l.(trace := l.trace + [OfferApplied(id, m.session)]);
      EnsureCameraTidy(a, configured, ops);
      var o := EnsureCamera(a, configured, ops);
      if ops.createAnswer && ops.setLocal && ops.write {
        assert Pc(id, o.session) == o.pc.value;
        SayTidy(o, AnswerSent(id, o.session));
      }
    }
  }

  lemma OnIceTidy(l: Loop, ops: Ops)
    requires Tidy(l)
    ensures Tidy(OnIce(l, ops))
  {
    if l.pc.Some? {
      SayTidy(l, CandidateApplied(l.pc.value.id));
    }
  }

  lemma OnGatheredTidy(l: Loop, k: nat)
    requires Tidy(l) && k < |l.made|
    ensures Tidy(l.(trace := l.trace + [CandidateSent(k, l.made[k].session)]))
  {
    assert Pc(k, l.made[k].session) == l.made[k];
    SayTidy(l, CandidateSent(k, l.made[k].session));
  }

  lemma OnGoneTidy(l: Loop)
    requires Tidy(l)
    ensures Tidy(CloseCamera(ClosePc(l)))
  {
    ClosePcTidy(l);
    CloseCameraTidy(ClosePc(l));
  }

  lemma OnInputTidy(l: Loop, i: Input, configured: bool)
    requires Tidy(l)
    ensures Tidy(OnInput(l, i, configured))
  {
    match i {
      case Garbage =>
      case Gathered(k) =>
        if k < |l.made| {
          OnGatheredTidy(l, k);
        }
      case Frame(m, ops) =>
        match m {
          case Ack(_, _, _, _) => OnAckTidy(l, m, ops);
          case PeerSdp(_, _, _) => OnSdpTidy(l, m, configured, ops);
          case PeerIce(_, _) => OnIceTidy(l, ops);
          case PeerGone(_, _) => OnGoneTidy(l);
          case _ =>
        }
    }
  }

  lemma {:induction false} AlwaysTidy(inputs: seq<Input>, configured: bool)
    ensures Tidy(After(inputs, configured))
  {
    if inputs != [] {
      AlwaysTidy(inputs[..|inputs| - 1], configured);
      OnInputTidy(After(inputs[..|inputs| - 1], configured), inputs[|inputs| - 1], configured);
    }
  }

  // ----- results -----

  /**
   * At every loop head at most one connection and one camera are held, each made for the current
   * session, and a held camera feeds the held connection.
   */
  lemma LoopHead(inputs: seq<Input>, configured: bool)
    ensures var l := After(inputs, configured);
            && (forall k: nat :: Count(Opens(k), l.trace) - Count(Closes(k), l.trace)
                                 == if l.pc.Some? && l.pc.value.id == k then 1 else 0)
            && (forall k: nat :: Count(Starts(k), l.trace) - Count(Stops(k), l.trace)
                                 == if l.camera == Some(k) then 1 else 0)
            && (l.pc.Some? ==> l.pc.value.session == l.session && PcOpened(l.pc.value) in l.trace)
            && (l.camera.Some? ==> l.pc.Some? && TrackAdded(l.pc.value.id, l.camera.value) in l.trace)
  {
    AlwaysTidy(inputs, configured);
    OpenedInTrace(inputs, configured);
  }

  lemma {:induction false} OpenedInTrace(inputs: seq<Input>, configured: bool)
    ensures var l := After(inputs, configured); l.pc.Some? ==> PcOpened(l.pc.value) in l.trace
  {
    if inputs != [] {
      OpenedInTrace(inputs[..|inputs| - 1], configured);
    }
  }

  /**
   * Conservation: for every stream and every pattern of failures, each connection and camera made
   * is closed exactly once, nothing else is closed, none is left when the loop returns, and none
   * is ever claimed while another of its kind is held.
   */
  lemma ResourcesConserved(inputs: seq<Input>, configured: bool)
    ensures var l := Return(After(inputs, configured));
            && (forall k: nat :: Count(Opens(k), l.trace) == Count(Closes(k), l.trace) == if k < |l.made| then 1 else 0)
            && (forall k: nat :: Count(Starts(k), l.trace) == Count(Stops(k), l.trace) == if k < l.cams then 1 else 0)
            && Exclusive(l.trace)
  {
    AlwaysTidy(inputs, configured);
    var l := After(inputs, configured);
    CloseCameraTidy(l);
    ClosePcTidy(CloseCamera(l));
  }

  /**
   * Every answer and every candidate of a connection carries the one session id that connection
   * was made for, and a connection never sends more answers than it accepted offers.
   */
  lemma AnswersCoherent(inputs: seq<Input>, configured: bool)
    ensures var l := Return(After(inputs, configured));
            && (forall e <- l.trace :: e.AnswerSent? || e.CandidateSent? ==> Pc(e.id, e.session) in l.made)
            && (forall p, q :: p in l.made && q in l.made && p.id == q.id ==> p == q)
            && (forall k: nat :: Count(Answers(k), l.trace) <= Count(Offers(k), l.trace))
  {
    AlwaysTidy(inputs, configured);
    var l := After(inputs, configured);
    CloseCameraTidy(l);
    ClosePcTidy(CloseCamera(l));
  }
}
