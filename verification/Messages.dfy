/** The wire vocabulary of the signaling protocol, as decoded values. */
module Messages {
  type PeerId = string
  type SessionId = string

  datatype IceServer = IceServer(urls: seq<string>, username: string, credential: string)

  /** The hub's own errors. */
  datatype HubError = PeerAlreadyConnected | TargetUnknown | SessionUnknown | NotMember

  datatype ErrCode = BadJsonCode | DispatchCode

  /** The text of an error reply, by its origin. */
  datatype ErrText = HubSays(error: HubError) | HelloAgain | KindUnknown(kind: string) | DecoderSays(text: string)

  /** Server to client. */
  datatype Msg =
    | HelloOk(self: PeerId)
    | Pong
    | Err(code: ErrCode, text: ErrText)
    | Ack(session: SessionId, peer: PeerId, iceServers: seq<IceServer>, initiator: bool)
    | PeerSdp(session: SessionId, role: string, sdp: string)
    | PeerIce(session: SessionId, cand: string)
    | PeerGone(session: SessionId, reason: string)

  /**
   * Client to server. `BadJson` is a frame that is no envelope, `Malformed` a known kind whose
   * body does not decode; both carry the decoder's text.
   */
  datatype Request =
    | Ping
    | SessionReq(peer: PeerId)
    | Sdp(session: SessionId, role: string, sdp: string)
    | Ice(session: SessionId, cand: string)
    | Bye(session: SessionId, reason: string)
    | Hello
    | Unknown(kind: string)
    | Malformed(text: string)
    | BadJson(text: string)

  predicate Names(m: Msg, sid: SessionId) {
    (m.Ack? || m.PeerSdp? || m.PeerIce? || m.PeerGone?) && m.session == sid
  }

  /** Relayed SDP or ICE. */
  predicate IsRelay(m: Msg) {
    m.PeerSdp? || m.PeerIce?
  }

  predicate RequestNames(r: Request, sid: SessionId) {
    (r.Sdp? || r.Ice? || r.Bye?) && r.session == sid
  }

  /** The filter for everything that names `sid`. */
  function Naming(sid: SessionId): Msg -> bool {
    m => Names(m, sid)
  }

  /** The filter for what names `sid` and is not an acknowledgement. */
  function TrafficOf(sid: SessionId): Msg -> bool {
    m => Names(m, sid) && !m.Ack?
  }

  /** The filter for acknowledgements of `sid`. */
  function AcksOf(sid: SessionId): Msg -> bool {
    m => Names(m, sid) && m.Ack?
  }

  /** The filter for SDP and ICE relayed under `sid`. */
  function RelaysOf(sid: SessionId): Msg -> bool {
    m => Names(m, sid) && IsRelay(m)
  }

  /** The filter for notices that `sid` is gone. */
  function GonesOf(sid: SessionId): Msg -> bool {
    m => Names(m, sid) && m.PeerGone?
  }

  /** The request that a relayed message stands for, read off the message's own fields. */
  function Unrelay(m: Msg): Request
    requires IsRelay(m)
  {
    match m
    case PeerSdp(session, role, sdp) => Sdp(session, role, sdp)
    case PeerIce(session, cand) => Ice(session, cand)
  }

  /** What the counterparty is sent for a relayed request: nothing of the request is lost. */
  function Relay(r: Request): (m: Msg)
    requires r.Sdp? || r.Ice?
    ensures Names(m, r.session) && IsRelay(m) && Unrelay(m) == r
  {
    match r
    case Sdp(session, role, sdp) => PeerSdp(session, role, sdp)
    case Ice(session, cand) => PeerIce(session, cand)
  }

  /** `(sdp|ice)* gone?` */
  predicate TrafficShape(ms: seq<Msg>) {
    forall k :: 0 <= k < |ms| ==> IsRelay(ms[k]) || (ms[k].PeerGone? && k == |ms| - 1)
  }

  /** A prefix of `ack (sdp|ice)* gone?`, the acknowledgement being the non-initiator's. */
  predicate TargetShape(ms: seq<Msg>) {
    ms == [] || (ms[0].Ack? && !ms[0].initiator && TrafficShape(ms[1..]))
  }

  lemma TargetShapePrefix(a: seq<Msg>, b: seq<Msg>)
    requires a <= b && TargetShape(b)
    ensures TargetShape(a)
  {
    if a != [] {
      forall k | 0 <= k < |a[1..]|
        ensures IsRelay(a[1..][k]) || (a[1..][k].PeerGone? && k == |a[1..]| - 1)
      {
        assert a[1..][k] == b[1..][k];
      }
    }
  }
}
