/**
 * What clients can rely on about the messages of a session, in every state of every
 * interleaving. Unless a lemma says otherwise it covers sessions of a peer with itself.
 */
module SessionTheorems {
  import opened Sequences
  import opened Messages
  import opened HubTables
  import opened Mailbox
  import opened Network
  import opened NetworkInvariant
  import opened RunHistory

  // ----- from lanes to what receivers are handed -----

  /** A receiver has been handed a prefix of what each sender has decided to send it. */
  lemma HeardPrefix(s: State, from: nat, to: nat)
    requires ChannelsFifo(s) && from < |s.conns| && to < |s.conns|
    ensures From(s.boxes[to].sent, from) <= To(Plan(s.conns[from]), to)
    ensures s.conns[from].outbox == [] ==> From(s.boxes[to].sent, from) == To(Plan(s.conns[from]), to)
  {
    assert ChannelFifo(s, from, to);
    ToConcat(s.conns[from].performed, s.conns[from].outbox, to);
  }

  /** What `to` has been handed by `from` about `sid` is a prefix of the session's story. */
  lemma HeardStory(s: State, sid: SessionId, from: nat, to: nat)
    requires Inv(s) && from < |s.conns| && to < |s.conns|
    ensures Keep(Naming(sid), From(s.boxes[to].sent, from)) <= Story(s, sid, from, to)
    ensures s.conns[from].outbox == [] ==>
              Keep(Naming(sid), From(s.boxes[to].sent, from)) == Story(s, sid, from, to)
  {
    HeardPrefix(s, from, to);
    KeepPrefix(Naming(sid), From(s.boxes[to].sent, from), To(Plan(s.conns[from]), to));
    assert Lane(s, sid, from, to) == Story(s, sid, from, to);
  }

  /** If only `voice` says anything that passes `f`, the sender can be forgotten. */
  lemma {:induction false} OneVoice(letters: seq<Letter>, f: Msg -> bool, voice: nat)
    requires forall x: nat :: x != voice ==> Keep(f, From(letters, x)) == []
    ensures Keep(f, Bodies(letters)) == Keep(f, From(letters, voice))
  {
    if letters != [] {
      var k := |letters| - 1;
      var l := letters[k];
      assert letters == letters[..k] + [l];
      assert Bodies(letters) == Bodies(letters[..k]) + [l.msg];
      KeepAppend(f, Bodies(letters[..k]), l.msg);
      forall x: nat | x != voice
        ensures Keep(f, From(letters[..k], x)) == []
      {
        FromAppend(letters[..k], l, x);
        KeepConcat(f, From(letters[..k], x), if l.from == x then [l.msg] else []);
      }
      OneVoice(letters[..k], f, voice);
      FromAppend(letters[..k], l, l.from);
      KeepAppend(f, From(letters[..k], l.from), l.msg);
      FromAppend(letters[..k], l, voice);
      if l.from != voice {
        assert Keep(f, From(letters, l.from)) == [];
        assert !f(l.msg);
        assert From(letters, voice) == From(letters[..k], voice);
      }
    }
  }

  /** Connections that do not exist have handed over nothing. */
  lemma NobodyElse(s: State, to: nat, from: nat, f: Msg -> bool)
    requires ChannelsFifo(s) && to < |s.conns| && from >= |s.conns|
    ensures Keep(f, From(s.boxes[to].sent, from)) == []
  {
    FromNobody(s.boxes[to].sent, from);
  }

  lemma {:induction false} LetterHeard(letters: seq<Letter>, l: Letter)
    requires l in letters
    ensures l.msg in From(letters, l.from)
  {
    var k := |letters| - 1;
    assert letters == letters[..k] + [letters[k]];
    if l != letters[k] {
      LetterHeard(letters[..k], l);
    }
  }

  /** A letter about a session is part of the session's story between its sender and receiver. */
  lemma LetterInStory(s: State, to: nat, l: Letter, sid: SessionId)
    requires Inv(s) && to < |s.conns| && l in s.boxes[to].sent && Names(l.msg, sid)
    ensures l.from < |s.conns| && sid in s.records && l.msg in Story(s, sid, l.from, to)
  {
    LetterHeard(s.boxes[to].sent, l);
    HeardStory(s, sid, l.from, to);
    KeepMembers(Naming(sid), From(s.boxes[to].sent, l.from));
  }

  /** The same for a message that a thread has decided to send. */
  lemma PlannedInStory(s: State, from: nat, to: nat, m: Msg, sid: SessionId)
    requires Inv(s) && from < |s.conns| && to < |s.conns|
    requires Delivery(to, m) in Plan(s.conns[from]) && Names(m, sid)
    ensures sid in s.records && m in Story(s, sid, from, to)
    ensures from != to ==> Counterparts(s.records[sid], from, to)
  {
    ToMembers(Plan(s.conns[from]), to);
    KeepMembers(Naming(sid), To(Plan(s.conns[from]), to));
    assert Lane(s, sid, from, to) == Story(s, sid, from, to);
  }

  /** A message about a session is handed over only once the session has been opened. */
  lemma HandedIsRecorded(s: State, e: Event, to: nat, k: nat, sid: SessionId)
    requires Inv(s) && HandsOver(s, e, to, k) && to < |s.conns| && Names(NextLetter(s, e).msg, sid)
    ensures sid in s.records
  {
    var d := s.conns[e.c].outbox[0];
    assert d in Plan(s.conns[e.c]);
    PlannedInStory(s, e.c, to, d.msg, sid);
  }

  /** What was heard from a sender was handed over by it. */
  lemma {:induction false} HeardLetter(letters: seq<Letter>, from: nat, m: Msg) returns (l: Letter)
    requires m in From(letters, from)
    ensures l in letters && l.from == from && l.msg == m
  {
    var k := |letters| - 1;
    assert letters == letters[..k] + [letters[k]];
    if m in From(letters[..k], from) {
      l := HeardLetter(letters[..k], from, m);
    } else {
      l := letters[k];
    }
  }

  // ----- the shape of a story -----

  lemma {:induction false} RelayedShape(routed: seq<Request>, sid: SessionId)
    ensures forall m <- Relayed(routed, sid) :: IsRelay(m) && Names(m, sid)
  {
    if routed != [] {
      RelayedShape(routed[..|routed| - 1], sid);
    }
  }

  lemma ClosingShape(s: State, sid: SessionId, from: nat, to: nat)
    requires sid in s.records
    ensures |Closing(s, sid, from, to)| <= 1
    ensures forall m <- Closing(s, sid, from, to) :: m.PeerGone? && Names(m, sid)
  {
  }

  lemma TailShape(r: seq<Msg>, c: seq<Msg>)
    requires forall m <- r :: IsRelay(m)
    requires |c| <= 1 && forall m <- c :: m.PeerGone?
    ensures TrafficShape(r + c)
  {
    forall k | 0 <= k < |r + c|
      ensures IsRelay((r + c)[k]) || ((r + c)[k].PeerGone? && k == |r + c| - 1)
    {
      if k < |r| {
        assert r[k] in r;
      } else {
        assert c[k - |r|] in c;
      }
    }
  }

  /** Between the two ends of a session that joins two connections. */
  lemma PairStory(s: State, sid: SessionId, from: nat, to: nat)
    requires from < |s.conns| && sid in s.records && from != to && Counterparts(s.records[sid], from, to)
    ensures var tail := Relayed(s.conns[from].routed, sid) + Closing(s, sid, from, to);
            && TrafficShape(tail)
            && (from == s.records[sid].initiator ==>
                  Story(s, sid, from, to) == [Ack(sid, IdOf(s, from), s.ice, false)] + tail)
            && (from == s.records[sid].target ==> Story(s, sid, from, to) == tail)
  {
    RelayedShape(s.conns[from].routed, sid);
    ClosingShape(s, sid, from, to);
    TailShape(Relayed(s.conns[from].routed, sid), Closing(s, sid, from, to));
  }

  // ----- the two ends -----

  /**
   * The target's side: whatever the interleaving, the messages about the session that are handed
   * to the target form a prefix of `ack (sdp|ice)* gone?`, the ack naming the initiator; once the
   * initiator's thread owes nothing, the target has been handed all it has coming.
   */
  lemma TargetGrammar(ss: seq<State>, es: seq<Event>, n: nat, sid: SessionId)
    requires IsRun(ss, es) && n < |ss| && sid in ss[n].records
    requires ss[n].records[sid].initiator != ss[n].records[sid].target
    ensures var i, t := ss[n].records[sid].initiator, ss[n].records[sid].target;
            && i < |ss[n].conns| && t < |ss[n].boxes|
            && var heard := Keep(Naming(sid), Bodies(ss[n].boxes[t].sent));
               && TargetShape(heard)
               && (heard != [] ==> heard[0] == Ack(sid, ss[n].conns[i].id, ss[n].ice, false))
               && (ss[n].conns[i].outbox == [] ==>
                     heard == [Ack(sid, ss[n].conns[i].id, ss[n].ice, false)]
                              + (Relayed(ss[n].conns[i].routed, sid) + Closing(ss[n], sid, i, t)))
  {
    ReachableInv(ss, es, n);
    TargetHears(ss[n], sid);
    var s := ss[n];
    var i, t := s.records[sid].initiator, s.records[sid].target;
    PairStory(s, sid, i, t);
    HeardStory(s, sid, i, t);
    assert TargetShape(Story(s, sid, i, t)) by {
      var tail := Relayed(s.conns[i].routed, sid) + Closing(s, sid, i, t);
      assert Story(s, sid, i, t)[1..] == tail;
    }
    TargetShapePrefix(Keep(Naming(sid), Bodies(s.boxes[t].sent)), Story(s, sid, i, t));
  }

  /** The target hears about the session from the initiator's thread alone. */
  lemma TargetHears(s: State, sid: SessionId)
    requires Inv(s) && sid in s.records && s.records[sid].initiator != s.records[sid].target
    ensures var r := s.records[sid];
            && r.initiator < |s.conns| && r.target < |s.conns|
            && Keep(Naming(sid), Bodies(s.boxes[r.target].sent))
               == Keep(Naming(sid), From(s.boxes[r.target].sent, r.initiator))
            && Keep(Naming(sid), Bodies(s.boxes[r.target].sent)) <= Story(s, sid, r.initiator, r.target)
  {
    assert RecordOk(s, sid);
    var i, t := s.records[sid].initiator, s.records[sid].target;
    forall x: nat | x != i
      ensures Keep(Naming(sid), From(s.boxes[t].sent, x)) == []
    {
      if x < |s.conns| {
        HeardStory(s, sid, x, t);
        assert Story(s, sid, x, t) == [];
      } else {
        NobodyElse(s, t, x, Naming(sid));
      }
    }
    OneVoice(s.boxes[t].sent, Naming(sid), i);
    HeardStory(s, sid, i, t);
  }

  /** Whoever is not the counterparty says nothing about the session but acknowledgements. */
  lemma OthersOnlyAck(s: State, sid: SessionId, x: nat, to: nat, f: Msg -> bool)
    requires Inv(s) && to < |s.conns| && sid in s.records && !Counterparts(s.records[sid], x, to)
    requires forall m :: f(m) ==> Names(m, sid) && !m.Ack?
    ensures Keep(f, From(s.boxes[to].sent, x)) == []
  {
    if x < |s.conns| {
      HeardStory(s, sid, x, to);
      assert Story(s, sid, x, to) == Opening(s, sid, x, to);
      var heard := Keep(Naming(sid), From(s.boxes[to].sent, x));
      forall m <- heard
        ensures !f(m)
      {
        assert m in Opening(s, sid, x, to);
      }
      KeepRefine(f, Naming(sid), From(s.boxes[to].sent, x));
      KeepNone(f, heard);
    } else {
      NobodyElse(s, to, x, f);
    }
  }

  /** What the initiator hears about the session, acknowledgement aside, comes from the target. */
  lemma InitiatorHears(s: State, sid: SessionId)
    requires Inv(s) && sid in s.records && s.records[sid].initiator != s.records[sid].target
    ensures var r := s.records[sid];
            && r.initiator < |s.conns| && r.target < |s.conns|
            && Keep(TrafficOf(sid), Bodies(s.boxes[r.initiator].sent))
               == Keep(Naming(sid), From(s.boxes[r.initiator].sent, r.target))
            && Keep(TrafficOf(sid), Bodies(s.boxes[r.initiator].sent)) <= Story(s, sid, r.target, r.initiator)
  {
    assert RecordOk(s, sid);
    var i, t := s.records[sid].initiator, s.records[sid].target;
    var letters := s.boxes[i].sent;
    forall x: nat | x != t
      ensures Keep(TrafficOf(sid), From(letters, x)) == []
    {
      OthersOnlyAck(s, sid, x, i, TrafficOf(sid));
    }
    OneVoice(letters, TrafficOf(sid), t);
    HeardStory(s, sid, t, i);
    TargetSaysTraffic(s, sid);
  }

  lemma TargetStory(s: State, sid: SessionId)
    requires sid in s.records && s.records[sid].initiator != s.records[sid].target < |s.conns|
    ensures forall m <- Story(s, sid, s.records[sid].target, s.records[sid].initiator) :: TrafficOf(sid)(m)
  {
    var i, t := s.records[sid].initiator, s.records[sid].target;
    PairStory(s, sid, t, i);
    RelayedShape(s.conns[t].routed, sid);
    ClosingShape(s, sid, t, i);
  }

  lemma TargetSaysTraffic(s: State, sid: SessionId)
    requires Inv(s) && sid in s.records && s.records[sid].initiator != s.records[sid].target
    ensures var r := s.records[sid];
            && r.initiator < |s.boxes|
            && Keep(TrafficOf(sid), From(s.boxes[r.initiator].sent, r.target))
               == Keep(Naming(sid), From(s.boxes[r.initiator].sent, r.target))
  {
    assert RecordOk(s, sid);
    var i, t := s.records[sid].initiator, s.records[sid].target;
    var heard := Keep(Naming(sid), From(s.boxes[i].sent, t));
    HeardStory(s, sid, t, i);
    TargetStory(s, sid);
    forall m <- heard
      ensures TrafficOf(sid)(m)
    {
      assert m in Story(s, sid, t, i);
    }
    KeepRefine(TrafficOf(sid), Naming(sid), From(s.boxes[i].sent, t));
    KeepAll(TrafficOf(sid), heard);
  }

  /**
   * The initiator's side, for arbitrary clients: at most one acknowledgement, and the rest of
   * what it is handed about the session forms a prefix of `(sdp|ice)* gone?`; once the target's
   * thread owes nothing, the initiator has been handed all the traffic it has coming.
   */
  lemma InitiatorGrammar(ss: seq<State>, es: seq<Event>, n: nat, sid: SessionId)
    requires IsRun(ss, es) && n < |ss| && sid in ss[n].records
    requires ss[n].records[sid].initiator != ss[n].records[sid].target
    ensures var i := ss[n].records[sid].initiator;
            && i < |ss[n].boxes|
            && TrafficShape(Keep(TrafficOf(sid), Bodies(ss[n].boxes[i].sent)))
            && |Keep(AcksOf(sid), Bodies(ss[n].boxes[i].sent))| <= 1
    ensures var i, t := ss[n].records[sid].initiator, ss[n].records[sid].target;
            && t < |ss[n].conns|
            && (ss[n].conns[t].outbox == [] ==>
                  Keep(TrafficOf(sid), Bodies(ss[n].boxes[i].sent))
                  == Relayed(ss[n].conns[t].routed, sid) + Closing(ss[n], sid, t, i))
  {
    ReachableInv(ss, es, n);
    var s := ss[n];
    var i, t := s.records[sid].initiator, s.records[sid].target;
    InitiatorHears(s, sid);
    HeardStory(s, sid, t, i);
    PairStory(s, sid, t, i);
    InitiatorAcks(s, sid);
  }

  lemma OnlyInitiatorAcks(s: State, sid: SessionId, x: nat)
    requires Inv(s) && sid in s.records && s.records[sid].initiator != s.records[sid].target
    requires s.records[sid].initiator < |s.conns| && x != s.records[sid].initiator && x < |s.conns|
    ensures forall m <- Story(s, sid, x, s.records[sid].initiator) :: !m.Ack?
  {
    if x == s.records[sid].target {
      TargetStory(s, sid);
    }
  }

  lemma AcksHeard(s: State, sid: SessionId, x: nat)
    requires Inv(s) && sid in s.records && s.records[sid].initiator != s.records[sid].target
    requires s.records[sid].initiator < |s.conns| && x != s.records[sid].initiator
    ensures s.records[sid].initiator < |s.boxes|
    ensures Keep(AcksOf(sid), From(s.boxes[s.records[sid].initiator].sent, x)) == []
  {
    var i := s.records[sid].initiator;
    var letters := s.boxes[i].sent;
    if x < |s.conns| {
      HeardStory(s, sid, x, i);
      OnlyInitiatorAcks(s, sid, x);
      KeepRefine(AcksOf(sid), Naming(sid), From(letters, x));
      KeepNone(AcksOf(sid), Keep(Naming(sid), From(letters, x)));
    } else {
      NobodyElse(s, i, x, AcksOf(sid));
    }
  }

  lemma InitiatorAcks(s: State, sid: SessionId)
    requires Inv(s) && sid in s.records && s.records[sid].initiator != s.records[sid].target
    ensures s.records[sid].initiator < |s.boxes|
    ensures |Keep(AcksOf(sid), Bodies(s.boxes[s.records[sid].initiator].sent))| <= 1
  {
    assert RecordOk(s, sid);
    var i := s.records[sid].initiator;
    var letters := s.boxes[i].sent;
    forall x: nat | x != i
      ensures Keep(AcksOf(sid), From(letters, x)) == []
    {
      AcksHeard(s, sid, x);
    }
    OneVoice(letters, AcksOf(sid), i);
    HeardStory(s, sid, i, i);
    assert |Story(s, sid, i, i)| == 1;
    KeepRefine(AcksOf(sid), Naming(sid), From(letters, i));
    KeepLength(AcksOf(sid), Keep(Naming(sid), From(letters, i)));
  }

  lemma {:induction false} KeepLength(f: Msg -> bool, ms: seq<Msg>)
    ensures |Keep(f, ms)| <= |ms|
  {
    if ms != [] {
      KeepLength(f, ms[..|ms| - 1]);
    }
  }

  /**
   * A peer's session with itself: it is handed a prefix of both acknowledgements, then the SDP and
   * ICE it dispatched, then a notice if it was a bye that ended the session.
   */
  lemma SelfSessionGrammar(ss: seq<State>, es: seq<Event>, n: nat, sid: SessionId)
    requires IsRun(ss, es) && n < |ss| && sid in ss[n].records
    requires ss[n].records[sid].initiator == ss[n].records[sid].target
    ensures var i := ss[n].records[sid].initiator;
            && i < |ss[n].conns| && i < |ss[n].boxes|
            && Keep(Naming(sid), Bodies(ss[n].boxes[i].sent))
               <= [Ack(sid, ss[n].conns[i].id, ss[n].ice, true), Ack(sid, ss[n].conns[i].id, ss[n].ice, false)]
                  + Relayed(ss[n].conns[i].routed, sid) + Closing(ss[n], sid, i, i)
  {
    ReachableInv(ss, es, n);
    var s := ss[n];
    assert RecordOk(s, sid);
    var i := s.records[sid].initiator;
    forall x: nat | x != i
      ensures Keep(Naming(sid), From(s.boxes[i].sent, x)) == []
    {
      if x < |s.conns| {
        HeardStory(s, sid, x, i);
        StoryNewcomer(s, sid, x, i);
      } else {
        NobodyElse(s, i, x, Naming(sid));
      }
    }
    OneVoice(s.boxes[i].sent, Naming(sid), i);
    HeardStory(s, sid, i, i);
    SelfStory(s, sid);
  }

  lemma SelfStory(s: State, sid: SessionId)
    requires sid in s.records && s.records[sid].initiator == s.records[sid].target < |s.conns|
    ensures var i := s.records[sid].initiator;
            Story(s, sid, i, i)
            == [Ack(sid, s.conns[i].id, s.ice, true), Ack(sid, s.conns[i].id, s.ice, false)]
               + Relayed(s.conns[i].routed, sid) + Closing(s, sid, i, i)
  {
    var i := s.records[sid].initiator;
    assert Opening(s, sid, i, i) == [Ack(sid, s.conns[i].id, s.ice, true), Ack(sid, s.conns[i].id, s.ice, false)];
  }

  // ----- end to end -----

  /** The filter for SDP and ICE frames about `sid`. */
  function AsksFor(sid: SessionId): Request -> bool {
    (q: Request) => (q.Sdp? || q.Ice?) && q.session == sid
  }

  /** The SDP and ICE frames about `sid` among those a connection had routed. */
  function Asked(routed: seq<Request>, sid: SessionId): seq<Request> {
    Keep(AsksFor(sid), routed)
  }

  predicate AllRelays(ms: seq<Msg>) {
    forall k :: 0 <= k < |ms| ==> IsRelay(ms[k])
  }

  /** The requests that relayed messages stand for. */
  function Unrelayed(ms: seq<Msg>): (rs: seq<Request>)
    requires AllRelays(ms)
    ensures |rs| == |ms|
  {
    seq(|ms|, k requires 0 <= k < |ms| => Unrelay(ms[k]))
  }

  /** Relaying keeps every frame, every field of it, and the order. */
  lemma {:induction false} RelayedExact(routed: seq<Request>, sid: SessionId)
    ensures AllRelays(Relayed(routed, sid)) && Unrelayed(Relayed(routed, sid)) == Asked(routed, sid)
  {
    RelayedShape(routed, sid);
    if routed != [] {
      RelayedExact(routed[..|routed| - 1], sid);
    }
  }

  lemma RelaysOnly(sid: SessionId, ms: seq<Msg>)
    ensures AllRelays(Keep(RelaysOf(sid), ms))
  {
    KeepMembers(RelaysOf(sid), ms);
    forall k | 0 <= k < |Keep(RelaysOf(sid), ms)|
      ensures IsRelay(Keep(RelaysOf(sid), ms)[k])
    {
      assert Keep(RelaysOf(sid), ms)[k] in Keep(RelaysOf(sid), ms);
    }
  }

  lemma {:induction false} SubsequenceUnrelayed(a: seq<Msg>, b: seq<Msg>)
    requires Subsequence(a, b) && AllRelays(a) && AllRelays(b)
    ensures Subsequence(Unrelayed(a), Unrelayed(b))
    decreases |b|
  {
    if a != [] {
      var i, j := |a| - 1, |b| - 1;
      assert Unrelayed(a)[..i] == Unrelayed(a[..i]) && Unrelayed(b)[..j] == Unrelayed(b[..j]);
      if a[i] == b[j] && Subsequence(a[..i], b[..j]) {
        SubsequenceUnrelayed(a[..i], b[..j]);
      } else {
        SubsequenceUnrelayed(a, b[..j]);
      }
    }
  }

  /**
   * For each end of a session joining two connections, the SDP and ICE it is handed are, field
   * for field and in order, those its counterparty dispatched; at most a last one is still owed.
   */
  lemma EndToEndOrder(ss: seq<State>, es: seq<Event>, n: nat, sid: SessionId, from: nat, to: nat)
    requires IsRun(ss, es) && n < |ss| && sid in ss[n].records
    requires from != to && Counterparts(ss[n].records[sid], from, to)
    ensures from < |ss[n].conns| && to < |ss[n].boxes|
    ensures AllRelays(Keep(RelaysOf(sid), Bodies(ss[n].boxes[to].sent)))
    ensures Unrelayed(Keep(RelaysOf(sid), Bodies(ss[n].boxes[to].sent))) <= Asked(ss[n].conns[from].routed, sid)
    ensures ss[n].conns[from].outbox == [] ==>
              Unrelayed(Keep(RelaysOf(sid), Bodies(ss[n].boxes[to].sent))) == Asked(ss[n].conns[from].routed, sid)
  {
    RelaysInOrder(ss, es, n, sid, from, to);
    RelaysOnly(sid, Bodies(ss[n].boxes[to].sent));
    RelayedExact(ss[n].conns[from].routed, sid);
  }

  lemma RelaysInOrder(ss: seq<State>, es: seq<Event>, n: nat, sid: SessionId, from: nat, to: nat)
    requires IsRun(ss, es) && n < |ss| && sid in ss[n].records
    requires from != to && Counterparts(ss[n].records[sid], from, to)
    ensures from < |ss[n].conns| && to < |ss[n].boxes|
    ensures Keep(RelaysOf(sid), Bodies(ss[n].boxes[to].sent)) <= Relayed(ss[n].conns[from].routed, sid)
    ensures ss[n].conns[from].outbox == [] ==>
              Keep(RelaysOf(sid), Bodies(ss[n].boxes[to].sent)) == Relayed(ss[n].conns[from].routed, sid)
  {
    ReachableInv(ss, es, n);
    assert RecordOk(ss[n], sid);
    RelaysHandedOver(ss[n], sid, from, to);
  }

  lemma RelaysHandedOver(s: State, sid: SessionId, from: nat, to: nat)
    requires Inv(s) && sid in s.records && from < |s.conns| && to < |s.conns|
    requires from != to && Counterparts(s.records[sid], from, to)
    ensures Keep(RelaysOf(sid), Bodies(s.boxes[to].sent)) <= Relayed(s.conns[from].routed, sid)
    ensures s.conns[from].outbox == [] ==>
              Keep(RelaysOf(sid), Bodies(s.boxes[to].sent)) == Relayed(s.conns[from].routed, sid)
  {
    var letters := s.boxes[to].sent;
    forall x: nat | x != from
      ensures Keep(RelaysOf(sid), From(letters, x)) == []
    {
      OthersOnlyAck(s, sid, x, to, RelaysOf(sid));
    }
    OneVoice(letters, RelaysOf(sid), from);
    HeardStory(s, sid, from, to);
    KeepRefine(RelaysOf(sid), Naming(sid), From(letters, from));
    KeepPrefix(RelaysOf(sid), Keep(Naming(sid), From(letters, from)), Story(s, sid, from, to));
    RelaysInStory(s, sid, from, to);
  }

  lemma RelaysInStory(s: State, sid: SessionId, from: nat, to: nat)
    requires sid in s.records && from < |s.conns|
    requires from != to && Counterparts(s.records[sid], from, to)
    ensures Keep(RelaysOf(sid), Story(s, sid, from, to)) == Relayed(s.conns[from].routed, sid)
  {
    var o, r, c := Opening(s, sid, from, to), Relayed(s.conns[from].routed, sid), Closing(s, sid, from, to);
    RelayedShape(s.conns[from].routed, sid);
    ClosingShape(s, sid, from, to);
    KeepNone(RelaysOf(sid), o);
    KeepNone(RelaysOf(sid), c);
    KeepAll(RelaysOf(sid), r);
    KeepMiddle(RelaysOf(sid), o, r, c);
  }

  lemma KeepMiddle(f: Msg -> bool, o: seq<Msg>, r: seq<Msg>, c: seq<Msg>)
    requires Keep(f, o) == [] && Keep(f, c) == []
    ensures Keep(f, o + r + c) == Keep(f, r)
  {
    KeepConcat(f, o + r, c);
    KeepConcat(f, o, r);
  }

  /**
   * On the wire: an order-preserving subsequence of what the counterparty dispatched, and an exact
   * prefix of it until the wire has got past the place where the receiver was closed.
   */
  lemma EndToEndWire(ss: seq<State>, es: seq<Event>, n: nat, sid: SessionId, from: nat, to: nat)
    requires IsRun(ss, es) && n < |ss| && sid in ss[n].records
    requires from != to && Counterparts(ss[n].records[sid], from, to)
    ensures from < |ss[n].conns| && to < |ss[n].boxes|
    ensures AllRelays(Keep(RelaysOf(sid), Bodies(ss[n].boxes[to].written)))
    ensures Subsequence(Unrelayed(Keep(RelaysOf(sid), Bodies(ss[n].boxes[to].written))), Asked(ss[n].conns[from].routed, sid))
    ensures !PastClose(ss[n].boxes[to]) ==>
              Unrelayed(Keep(RelaysOf(sid), Bodies(ss[n].boxes[to].written))) <= Asked(ss[n].conns[from].routed, sid)
  {
    RelaysOnWire(ss, es, n, sid, from, to);
    RelaysOnly(sid, Bodies(ss[n].boxes[to].written));
    RelayedExact(ss[n].conns[from].routed, sid);
    SubsequenceUnrelayed(Keep(RelaysOf(sid), Bodies(ss[n].boxes[to].written)), Relayed(ss[n].conns[from].routed, sid));
  }

  lemma RelaysOnWire(ss: seq<State>, es: seq<Event>, n: nat, sid: SessionId, from: nat, to: nat)
    requires IsRun(ss, es) && n < |ss| && sid in ss[n].records
    requires from != to && Counterparts(ss[n].records[sid], from, to)
    ensures from < |ss[n].conns| && to < |ss[n].boxes|
    ensures Subsequence(Keep(RelaysOf(sid), Bodies(ss[n].boxes[to].written)), Relayed(ss[n].conns[from].routed, sid))
    ensures !PastClose(ss[n].boxes[to]) ==>
              Keep(RelaysOf(sid), Bodies(ss[n].boxes[to].written)) <= Relayed(ss[n].conns[from].routed, sid)
  {
    RelaysInOrder(ss, es, n, sid, from, to);
    ReachableInv(ss, es, n);
    var b := ss[n].boxes[to];
    var story := Relayed(ss[n].conns[from].routed, sid);
    WireIsSubsequence(b);
    SubsequenceBodies(b.written, b.sent);
    SubsequenceKeep(RelaysOf(sid), Bodies(b.written), Bodies(b.sent));
    SubsequenceOfPrefix(Keep(RelaysOf(sid), Bodies(b.written)), Keep(RelaysOf(sid), Bodies(b.sent)), story);
    if !PastClose(b) {
      PrefixExact(b);
      assert Bodies(b.written) <= Bodies(b.sent);
      KeepPrefix(RelaysOf(sid), Bodies(b.written), Bodies(b.sent));
    }
  }

  lemma {:induction false} SubsequenceBodies(a: seq<Letter>, b: seq<Letter>)
    requires Subsequence(a, b)
    ensures Subsequence(Bodies(a), Bodies(b))
    decreases |b|
  {
    if a != [] {
      var i, j := |a| - 1, |b| - 1;
      assert Bodies(a)[..i] == Bodies(a[..i]) && Bodies(b)[..j] == Bodies(b[..j]);
      if a[i] == b[j] && Subsequence(a[..i], b[..j]) {
        SubsequenceBodies(a[..i], b[..j]);
      } else {
        SubsequenceBodies(a, b[..j]);
      }
    }
  }

  lemma {:induction false} SubsequenceOfPrefix(a: seq<Msg>, b: seq<Msg>, c: seq<Msg>)
    requires Subsequence(a, b) && b <= c
    ensures Subsequence(a, c)
    decreases |c|
  {
    if b != c && a != [] {
      SubsequenceOfPrefix(a, b, c[..|c| - 1]);
    }
  }

  // ----- who is told what -----

  /**
   * Whatever names a session is handed over only by a member's thread and only to a connection
   * object that was a member when the session was opened, however late the send happens.
   */
  lemma Addressing(ss: seq<State>, es: seq<Event>, n: nat, to: nat, l: Letter, sid: SessionId)
    requires IsRun(ss, es) && n < |ss| && to < |ss[n].boxes|
    requires l in ss[n].boxes[to].sent && Names(l.msg, sid)
    ensures sid in ss[n].records
    ensures Member(ss[n].records[sid], to) && Member(ss[n].records[sid], l.from)
    ensures l.msg.PeerSdp? || l.msg.PeerIce? || l.msg.PeerGone? ==> Counterparts(ss[n].records[sid], l.from, to)
  {
    ReachableInv(ss, es, n);
    var s := ss[n];
    LetterInStory(s, to, l, sid);
    if !Counterparts(s.records[sid], l.from, to) {
      assert Story(s, sid, l.from, to) == Opening(s, sid, l.from, to) + [] + [];
    }
  }

  /** Over a whole run a session's end is announced at most once, to at most one connection. */
  lemma AtMostOneGone(ss: seq<State>, es: seq<Event>, n: nat, sid: SessionId, to: nat, other: nat)
    requires IsRun(ss, es) && n < |ss| && to < |ss[n].boxes| && other < |ss[n].boxes|
    ensures |Keep(GonesOf(sid), Bodies(ss[n].boxes[to].sent))| <= 1
    ensures (Keep(GonesOf(sid), Bodies(ss[n].boxes[to].sent)) != []
             && Keep(GonesOf(sid), Bodies(ss[n].boxes[other].sent)) != []) ==> to == other
  {
    ReachableInv(ss, es, n);
    GonesHeard(ss[n], sid, to);
    GonesHeard(ss[n], sid, other);
  }

  /**
   * And it is announced: once the thread that removed a session owes nothing, the counterparty of
   * the remover, if there is one, has been handed exactly one notice, with the removal's reason.
   */
  lemma ExactlyOneGone(ss: seq<State>, es: seq<Event>, n: nat, sid: SessionId, to: nat)
    requires IsRun(ss, es) && n < |ss| && sid in ss[n].records && sid in ss[n].removed
    requires Counterparts(ss[n].records[sid], ss[n].removed[sid].remover, to)
    requires ss[n].removed[sid].ByDisconnect? ==> ss[n].removed[sid].remover != to
    requires ss[n].removed[sid].remover < |ss[n].conns| && ss[n].conns[ss[n].removed[sid].remover].outbox == []
    ensures to < |ss[n].boxes|
    ensures Keep(GonesOf(sid), Bodies(ss[n].boxes[to].sent))
         == [PeerGone(sid, if ss[n].removed[sid].ByBye? then ss[n].removed[sid].reason else DISCONNECTED)]
  {
    ReachableInv(ss, es, n);
    assert RecordOk(ss[n], sid);
    RemoverHeard(ss[n], sid, to);
  }

  lemma OthersNoGone(s: State, sid: SessionId, x: nat, to: nat)
    requires Inv(s) && to < |s.boxes| && sid in s.records && sid in s.removed && x != s.removed[sid].remover
    ensures Keep(GonesOf(sid), From(s.boxes[to].sent, x)) == []
  {
    if x < |s.conns| {
      HeardStory(s, sid, x, to);
      KeepRefine(GonesOf(sid), Naming(sid), From(s.boxes[to].sent, x));
      KeepPrefix(GonesOf(sid), Keep(Naming(sid), From(s.boxes[to].sent, x)), Story(s, sid, x, to));
      GonesInStory(s, sid, x, to);
    } else {
      NobodyElse(s, to, x, GonesOf(sid));
    }
  }

  /** What a receiver hears of a session's end, once the remover owes nothing, is its closing part. */
  lemma RemoverHeard(s: State, sid: SessionId, to: nat)
    requires Inv(s) && to < |s.boxes| && sid in s.records && sid in s.removed
    requires s.removed[sid].remover < |s.conns| && s.conns[s.removed[sid].remover].outbox == []
    ensures Keep(GonesOf(sid), Bodies(s.boxes[to].sent)) == Closing(s, sid, s.removed[sid].remover, to)
  {
    var x := s.removed[sid].remover;
    var letters := s.boxes[to].sent;
    forall y: nat | y != x
      ensures Keep(GonesOf(sid), From(letters, y)) == []
    {
      OthersNoGone(s, sid, y, to);
    }
    OneVoice(letters, GonesOf(sid), x);
    HeardStory(s, sid, x, to);
    KeepRefine(GonesOf(sid), Naming(sid), From(letters, x));
    GonesInStory(s, sid, x, to);
  }

  lemma GonesHeard(s: State, sid: SessionId, to: nat)
    requires Inv(s) && to < |s.boxes|
    ensures |Keep(GonesOf(sid), Bodies(s.boxes[to].sent))| <= 1
    ensures Keep(GonesOf(sid), Bodies(s.boxes[to].sent)) != [] ==>
              sid in s.records && sid in s.removed && Counterparts(s.records[sid], s.removed[sid].remover, to)
  {
    var letters := s.boxes[to].sent;
    var voice := if sid in s.removed then s.removed[sid].remover else 0;
    forall x: nat
      ensures |Keep(GonesOf(sid), From(letters, x))| <= 1
      ensures Keep(GonesOf(sid), From(letters, x)) != [] ==>
                sid in s.records && sid in s.removed && x == voice && Counterparts(s.records[sid], x, to)
    {
      if x < |s.conns| {
        HeardStory(s, sid, x, to);
        KeepRefine(GonesOf(sid), Naming(sid), From(letters, x));
        KeepPrefix(GonesOf(sid), Keep(Naming(sid), From(letters, x)), Story(s, sid, x, to));
        GonesInStory(s, sid, x, to);
      } else {
        NobodyElse(s, to, x, GonesOf(sid));
      }
    }
    OneVoice(letters, GonesOf(sid), voice);
  }

  lemma GonesInStory(s: State, sid: SessionId, from: nat, to: nat)
    requires from < |s.conns|
    ensures Keep(GonesOf(sid), Story(s, sid, from, to)) == if sid in s.records then Closing(s, sid, from, to) else []
  {
    if sid in s.records {
      var o, c := Opening(s, sid, from, to), Closing(s, sid, from, to);
      var r := if Counterparts(s.records[sid], from, to) then Relayed(s.conns[from].routed, sid) else [];
      RelayedShape(s.conns[from].routed, sid);
      ClosingShape(s, sid, from, to);
      KeepConcat(GonesOf(sid), o + r, c);
      KeepConcat(GonesOf(sid), o, r);
      KeepNone(GonesOf(sid), o);
      KeepNone(GonesOf(sid), r);
      KeepAll(GonesOf(sid), c);
    }
  }
}
