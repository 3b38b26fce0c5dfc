/**
 * Which session an applied offer belongs to. The relay does not compare the session a `peer.sdp`
 * names with the one it is serving; these lemmas say exactly when that is harmless, and that the
 * hub makes it harmless for a relay whose sessions follow one another.
 */
module RelaySessions {
  import opened Basics
  import opened Sequences
  import opened Messages
  import opened Mailbox
  import opened Network
  import opened NetworkInvariant
  import opened RunHistory
  import opened SessionTheorems
  import opened Relay

  /** The decoded frames of an input stream. */
  function Stream(inputs: seq<Input>): seq<Msg> {
    if inputs == [] then []
    else
      var i := inputs[|inputs| - 1];
      Stream(inputs[..|inputs| - 1]) + (if i.Frame? then [i.msg] else [])
  }

  predicate TargetAck(m: Msg) {
    m.Ack? && !m.initiator
  }

  /** The session acknowledged last, unless a peer.gone has come since. */
  function Current(ms: seq<Msg>): Option<SessionId> {
    if ms == [] then None
    else
      var m := ms[|ms| - 1];
      if TargetAck(m) then Some(m.session)
      else if m.PeerGone? then None
      else Current(ms[..|ms| - 1])
  }

  /** Every offer that arrives while a session is current names that session. */
  predicate OffersCurrent(ms: seq<Msg>) {
    forall n :: 0 <= n < |ms| && ms[n].PeerSdp? && ms[n].role == "offer" && Current(ms[..n]).Some? ==>
      ms[n].session == Current(ms[..n]).value
  }

  /** Every offer applied names the session its connection was made for. */
  predicate OffersNameLive(l: Loop) {
    forall e <- l.trace :: e.OfferApplied? ==> Pc(e.id, e.named) in l.made
  }

  lemma StreamAppend(inputs: seq<Input>, i: Input)
    ensures Stream(inputs + [i]) == Stream(inputs) + (if i.Frame? then [i.msg] else [])
  {
    assert (inputs + [i])[..|inputs|] == inputs;
  }

  lemma CurrentAppend(ms: seq<Msg>, m: Msg)
    ensures Current(ms + [m]) == if TargetAck(m) then Some(m.session) else if m.PeerGone? then None else Current(ms)
  {
    assert (ms + [m])[..|ms|] == ms;
  }

  /** A held connection serves the current session. */
  lemma {:induction false} HeldIsCurrent(inputs: seq<Input>, configured: bool)
    ensures var l := After(inputs, configured); l.pc.Some? ==> Current(Stream(inputs)) == Some(l.pc.value.session)
  {
    if inputs != [] {
      var before, i := inputs[..|inputs| - 1], inputs[|inputs| - 1];
      HeldIsCurrent(before, configured);
      if i.Frame? {
        CurrentAppend(Stream(before), i.msg);
      } else {
        assert Stream(inputs) == Stream(before);
      }
    }
  }

  lemma OffersCurrentPrefix(ms: seq<Msg>, m: Msg)
    requires OffersCurrent(ms + [m])
    ensures OffersCurrent(ms)
    ensures m.PeerSdp? && m.role == "offer" && Current(ms).Some? ==> m.session == Current(ms).value
  {
    var all := ms + [m];
    assert all[..|ms|] == ms && all[|ms|] == m;
    forall n | 0 <= n < |ms| && ms[n].PeerSdp? && ms[n].role == "offer" && Current(ms[..n]).Some?
      ensures ms[n].session == Current(ms[..n]).value
    {
      assert all[n] == ms[n] && all[..n] == ms[..n];
    }
  }

  /** Handling an input adds at most one applied offer, that of the frame itself. */
  lemma OffersAdded(l: Loop, i: Input, configured: bool)
    requires OffersNameLive(l)
    requires l.pc.Some? ==> l.pc.value in l.made
    requires i.Frame? && i.msg.PeerSdp? && i.msg.role == "offer" && l.pc.Some? ==> i.msg.session == l.pc.value.session
    ensures OffersNameLive(OnInput(l, i, configured))
  {
    if i.Frame? && i.msg.PeerSdp? && l.pc.Some? && i.msg.role == "offer" && i.ops.setRemote {
      var a := l.(trace := l.trace + [OfferApplied(l.pc.value.id, i.msg.session)]);
      assert Pc(l.pc.value.id, i.msg.session) == l.pc.value;
      assert OffersNameLive(a);
      assert OffersNameLive(EnsureCamera(a, configured, i.ops));
    }
  }

  lemma {:induction false} CurrentSuffices(inputs: seq<Input>, configured: bool)
    requires OffersCurrent(Stream(inputs))
    ensures OffersNameLive(After(inputs, configured))
  {
    if inputs != [] {
      var before, i := inputs[..|inputs| - 1], inputs[|inputs| - 1];
      if i.Frame? {
        OffersCurrentPrefix(Stream(before), i.msg);
      } else {
        assert Stream(inputs) == Stream(before);
      }
      CurrentSuffices(before, configured);
      HeldIsCurrent(before, configured);
      AlwaysTidy(before, configured);
      OffersAdded(After(before, configured), i, configured);
    }
  }

  // ----- the condition is necessary -----

  const ALL_OK := Ops(true, true, true, true, true, true, true, true, true)

  /** The stream `ms` with no operation failing. */
  function Smooth(ms: seq<Msg>): seq<Input> {
    seq(|ms|, k requires 0 <= k < |ms| => Frame(ms[k], ALL_OK))
  }

  lemma {:induction false} SmoothStream(ms: seq<Msg>)
    ensures Stream(Smooth(ms)) == ms
  {
    if ms != [] {
      var k := |ms| - 1;
      SmoothStream(ms[..k]);
      assert Smooth(ms) == Smooth(ms[..k]) + [Frame(ms[k], ALL_OK)];
      StreamAppend(Smooth(ms[..k]), Frame(ms[k], ALL_OK));
    }
  }

  lemma SmoothAppend(ms: seq<Msg>, m: Msg)
    ensures After(Smooth(ms + [m]), false) == OnInput(After(Smooth(ms), false), Frame(m, ALL_OK), false)
  {
    assert Smooth(ms + [m]) == Smooth(ms) + [Frame(m, ALL_OK)];
    assert (Smooth(ms) + [Frame(m, ALL_OK)])[..|Smooth(ms)|] == Smooth(ms);
  }

  /** When nothing fails, a connection is held exactly while a session is current. */
  lemma {:induction false} SmoothHolds(ms: seq<Msg>)
    ensures Current(ms).Some? ==> After(Smooth(ms), false).pc.Some?
  {
    if ms != [] {
      var k := |ms| - 1;
      SmoothHolds(ms[..k]);
      assert ms == ms[..k] + [ms[k]];
      SmoothAppend(ms[..k], ms[k]);
      CurrentAppend(ms[..k], ms[k]);
    }
  }

  lemma TraceGrows(l: Loop, i: Input, configured: bool)
    ensures l.trace <= OnInput(l, i, configured).trace && l.made <= OnInput(l, i, configured).made
  {
  }

  lemma {:induction false} SmoothGrows(ms: seq<Msg>, n: nat)
    requires n <= |ms|
    ensures After(Smooth(ms[..n]), false).trace <= After(Smooth(ms), false).trace
    decreases |ms|
  {
    if n == |ms| {
      assert ms[..n] == ms;
    } else {
      var k := |ms| - 1;
      assert ms[..k][..n] == ms[..n];
      SmoothGrows(ms[..k], n);
      assert ms == ms[..k] + [ms[k]];
      SmoothAppend(ms[..k], ms[k]);
      TraceGrows(After(Smooth(ms[..k]), false), Frame(ms[k], ALL_OK), false);
    }
  }

  /** An offer for another session than the current one is applied to the wrong connection. */
  lemma CurrentNecessary(ms: seq<Msg>, n: nat)
    requires n < |ms| && ms[n].PeerSdp? && ms[n].role == "offer"
    requires Current(ms[..n]).Some? && ms[n].session != Current(ms[..n]).value
    ensures !OffersNameLive(After(Smooth(ms), false))
  {
    var l := After(Smooth(ms[..n]), false);
    SmoothHolds(ms[..n]);
    SmoothStream(ms[..n]);
    HeldIsCurrent(Smooth(ms[..n]), false);
    SmoothAppend(ms[..n], ms[n]);
    assert ms[..n] + [ms[n]] == ms[..n + 1];
    var e := OfferApplied(l.pc.value.id, ms[n].session);
    assert (l.trace + [e])[|l.trace|] == e;
    assert e in After(Smooth(ms[..n + 1]), false).trace;
    SmoothGrows(ms, n + 1);
    AlwaysTidy(Smooth(ms), false);
    AlwaysTidy(Smooth(ms[..n]), false);
    assert l.pc.value in l.made;
    SmoothMade(ms, n);
  }

  lemma {:induction false} SmoothMade(ms: seq<Msg>, n: nat)
    requires n <= |ms|
    ensures After(Smooth(ms[..n]), false).made <= After(Smooth(ms), false).made
    decreases |ms|
  {
    if n == |ms| {
      assert ms[..n] == ms;
    } else {
      var k := |ms| - 1;
      assert ms[..k][..n] == ms[..n];
      SmoothMade(ms[..k], n);
      assert ms == ms[..k] + [ms[k]];
      SmoothAppend(ms[..k], ms[k]);
      TraceGrows(After(Smooth(ms[..k]), false), Frame(ms[k], ALL_OK), false);
    }
  }

  /**
   * The exact condition. A stream is one on which the relay applies every offer to a connection
   * of the session it names, whatever fails and whenever callbacks fire, if and only if each offer
   * that arrives while a session is current names that session.
   */
  lemma OfferCoherenceExact(ms: seq<Msg>)
    ensures OffersCurrent(ms) <==>
              forall inputs, configured :: Stream(inputs) == ms ==> OffersNameLive(After(inputs, configured))
  {
    if OffersCurrent(ms) {
      forall inputs, configured | Stream(inputs) == ms
        ensures OffersNameLive(After(inputs, configured))
      {
        CurrentSuffices(inputs, configured);
      }
    } else {
      var n :| 0 <= n < |ms| && ms[n].PeerSdp? && ms[n].role == "offer" && Current(ms[..n]).Some?
               && ms[n].session != Current(ms[..n]).value;
      CurrentNecessary(ms, n);
      SmoothStream(ms);
      assert !(Stream(Smooth(ms)) == ms ==> OffersNameLive(After(Smooth(ms), false)));
    }
  }

  // ----- sequential sessions -----

  /** A session opens only after the previous one's peer.gone. */
  predicate Sequential(ms: seq<Msg>) {
    forall j, k :: 0 <= j < k < |ms| && TargetAck(ms[j]) && TargetAck(ms[k]) ==>
      exists g :: j < g < k && ms[g].PeerGone? && ms[g].session == ms[j].session
  }

  /** The hub's promise to a target, for every session at once. */
  ghost predicate TargetStream(ms: seq<Msg>) {
    forall sid :: TargetShape(Keep(Naming(sid), ms))
  }

  /** The acknowledgement at `j` is the last in `ms`. */
  ghost predicate LastAck(ms: seq<Msg>, j: int) {
    0 <= j < |ms| && TargetAck(ms[j]) && forall k :: j < k < |ms| ==> !TargetAck(ms[k])
  }

  lemma {:induction false} CurrentMeans(ms: seq<Msg>) returns (j: int)
    requires Current(ms).Some?
    ensures LastAck(ms, j) && ms[j].session == Current(ms).value
  {
    var k := |ms| - 1;
    if TargetAck(ms[k]) {
      j := k;
    } else {
      j := CurrentMeans(ms[..k]);
      assert ms == ms[..k] + [ms[k]];
    }
  }

  /** What can precede relayed traffic in the target grammar. */
  lemma ShapeBeforeRelay(about: seq<Msg>, p: nat)
    requires TargetShape(about) && p < |about| && IsRelay(about[p])
    ensures p > 0 && TargetAck(about[0])
    ensures forall h :: 0 <= h < p ==> !about[h].PeerGone?
  {
    forall h | 0 <= h < p
      ensures !about[h].PeerGone?
    {
      if h > 0 {
        assert about[1..][h - 1] == about[h];
      }
    }
  }

  /** Before a session's SDP there is its acknowledgement, and not yet its peer.gone. */
  lemma SdpInSession(ms: seq<Msg>, n: nat) returns (j: int)
    requires n < |ms| && ms[n].PeerSdp? && TargetShape(Keep(Naming(ms[n].session), ms))
    ensures 0 <= j < n && TargetAck(ms[j]) && ms[j].session == ms[n].session
    ensures forall g :: 0 <= g < n && ms[g].PeerGone? ==> ms[g].session != ms[n].session
  {
    var sid := ms[n].session;
    var about := Keep(Naming(sid), ms);
    var before := Keep(Naming(sid), ms[..n]);
    KeepAt(Naming(sid), ms, n);
    KeepMembers(Naming(sid), ms[..n]);
    assert about[|before|] == ms[n];
    ShapeBeforeRelay(about, |before|);
    assert before[0] == about[0] && before[0] in before;
    j :| 0 <= j < n && ms[..n][j] == before[0];
    forall m <- before
      ensures !m.PeerGone?
    {
      var h :| 0 <= h < |before| && before[h] == m;
      assert about[h] == before[h];
    }
    forall g | 0 <= g < n && ms[g].PeerGone?
      ensures ms[g].session != sid
    {
      assert ms[..n][g] == ms[g] && ms[g] in ms[..n];
    }
  }

  lemma OfferInOrder(ms: seq<Msg>, n: nat)
    requires n < |ms| && ms[n].PeerSdp? && TargetShape(Keep(Naming(ms[n].session), ms)) && Sequential(ms)
    requires Current(ms[..n]).Some?
    ensures ms[n].session == Current(ms[..n]).value
  {
    var l := CurrentMeans(ms[..n]);
    var j := SdpInSession(ms, n);
    assert ms[..n][j] == ms[j] && ms[..n][l] == ms[l];
    assert j <= l;
  }

  /** Sequential sessions under the hub's grammar are coherent. */
  lemma SequentialSuffices(ms: seq<Msg>)
    requires TargetStream(ms) && Sequential(ms)
    ensures OffersCurrent(ms)
  {
    forall n | 0 <= n < |ms| && ms[n].PeerSdp? && ms[n].role == "offer" && Current(ms[..n]).Some?
      ensures ms[n].session == Current(ms[..n]).value
    {
      assert TargetShape(Keep(Naming(ms[n].session), ms));
      OfferInOrder(ms, n);
    }
  }

  // ----- through the hub -----

  /** What a connection that never asks for a session is handed obeys the target grammar. */
  lemma HandedIsTargetStream(ss: seq<State>, es: seq<Event>, n: nat, c: nat)
    requires IsRun(ss, es) && n < |ss| && c < |ss[n].boxes|
    requires forall sid :: sid in ss[n].records ==> ss[n].records[sid].initiator != c
    ensures TargetStream(Bodies(ss[n].boxes[c].sent))
  {
    var b := ss[n].boxes[c];
    forall sid
      ensures TargetShape(Keep(Naming(sid), Bodies(b.sent)))
    {
      if sid in ss[n].records && ss[n].records[sid].target == c {
        TargetGrammar(ss, es, n, sid);
      } else {
        forall m <- Bodies(b.sent)
          ensures !Naming(sid)(m)
        {
          var k :| 0 <= k < |b.sent| && Bodies(b.sent)[k] == m;
          if Names(b.sent[k].msg, sid) {
            Addressing(ss, es, n, c, b.sent[k], sid);
          }
        }
        KeepNone(Naming(sid), Bodies(b.sent));
      }
    }
  }

  /** Up to the place of the close, the wire is a prefix of what was handed over. */
  lemma WireIsHandedPrefix(ss: seq<State>, es: seq<Event>, n: nat, c: nat)
    requires IsRun(ss, es) && n < |ss| && c < |ss[n].boxes| && !PastClose(ss[n].boxes[c])
    ensures Bodies(ss[n].boxes[c].written) <= Bodies(ss[n].boxes[c].sent)
  {
    ReachableInv(ss, es, n);
    PrefixExact(ss[n].boxes[c]);
  }

  /** What a connection that never asks for a session is sent, up to the place of its close, obeys it too. */
  lemma WireIsTargetStream(ss: seq<State>, es: seq<Event>, n: nat, c: nat)
    requires IsRun(ss, es) && n < |ss| && c < |ss[n].boxes| && !PastClose(ss[n].boxes[c])
    requires forall sid :: sid in ss[n].records ==> ss[n].records[sid].initiator != c
    ensures TargetStream(Bodies(ss[n].boxes[c].written))
  {
    var written, sent := Bodies(ss[n].boxes[c].written), Bodies(ss[n].boxes[c].sent);
    HandedIsTargetStream(ss, es, n, c);
    WireIsHandedPrefix(ss, es, n, c);
    forall sid
      ensures TargetShape(Keep(Naming(sid), written))
    {
      KeepPrefix(Naming(sid), written, sent);
      assert TargetShape(Keep(Naming(sid), sent));
      TargetShapePrefix(Keep(Naming(sid), written), Keep(Naming(sid), sent));
    }
  }

  lemma OffersCurrentOfPrefix(ms: seq<Msg>, all: seq<Msg>)
    requires ms <= all && OffersCurrent(all)
    ensures OffersCurrent(ms)
  {
    forall n | 0 <= n < |ms| && ms[n].PeerSdp? && ms[n].role == "offer" && Current(ms[..n]).Some?
      ensures ms[n].session == Current(ms[..n]).value
    {
      assert ms[n] == all[n] && ms[..n] == all[..n];
    }
  }

  /**
   * For any wire whatever, of an open or a closed connection: a relay that reads any part of it
   * applies every offer to a connection of the session it names, whatever fails and whenever
   * callbacks fire, if and only if each offer on the wire that arrives while a session is current
   * names that session.
   */
  lemma WireCoherenceExact(wire: seq<Msg>)
    ensures OffersCurrent(wire) <==>
              forall inputs, configured :: Stream(inputs) <= wire ==> OffersNameLive(After(inputs, configured))
  {
    if OffersCurrent(wire) {
      forall inputs, configured | Stream(inputs) <= wire
        ensures OffersNameLive(After(inputs, configured))
      {
        OffersCurrentOfPrefix(Stream(inputs), wire);
        CurrentSuffices(inputs, configured);
      }
    } else {
      var n :| 0 <= n < |wire| && wire[n].PeerSdp? && wire[n].role == "offer" && Current(wire[..n]).Some?
               && wire[n].session != Current(wire[..n]).value;
      CurrentNecessary(wire, n);
      SmoothStream(wire);
      assert !(Stream(Smooth(wire)) <= wire ==> OffersNameLive(After(Smooth(wire), false)));
    }
  }

  /**
   * A relay that reads from the hub what its connection was sent up to the place of its close, and
   * is sent sessions that follow one another, applies every offer to a connection of the session it
   * names.
   */
  lemma RelayServesSequentialStream(
      ss: seq<State>, es: seq<Event>, n: nat, c: nat, inputs: seq<Input>, configured: bool)
    requires IsRun(ss, es) && n < |ss| && c < |ss[n].boxes| && !PastClose(ss[n].boxes[c])
    requires forall sid :: sid in ss[n].records ==> ss[n].records[sid].initiator != c
    requires Stream(inputs) <= Bodies(ss[n].boxes[c].written) && Sequential(Stream(inputs))
    ensures OffersNameLive(After(inputs, configured))
  {
    WireIsTargetStream(ss, es, n, c);
    forall sid
      ensures TargetShape(Keep(Naming(sid), Stream(inputs)))
    {
      KeepPrefix(Naming(sid), Stream(inputs), Bodies(ss[n].boxes[c].written));
      TargetShapePrefix(Keep(Naming(sid), Stream(inputs)), Keep(Naming(sid), Bodies(ss[n].boxes[c].written)));
    }
    SequentialSuffices(Stream(inputs));
    CurrentSuffices(inputs, configured);
  }

  // ----- one session at a time -----

  /** `e` opens a session with `c`. */
  predicate Calls(s: State, e: Event, c: nat) {
    e.Read? && RunHistory.Opens(s, e, e.newSid) && OpenedRecord(s, e).target == c
  }

  ghost predicate GoneHanded(s: State, c: nat, sid: SessionId) {
    c < |s.boxes| && exists l :: l in s.boxes[c].sent && l.msg.PeerGone? && l.msg.session == sid
  }

  /** Every session opened with `c` so far is over, and `c` has been handed its peer.gone. */
  ghost predicate Free(s: State, c: nat) {
    forall sid :: sid in s.records && s.records[sid].target == c ==> GoneHanded(s, c, sid)
  }

  /** A session with `c` is opened only after the previous one's peer.gone has been handed to it. */
  ghost predicate OneAtATime(ss: seq<State>, es: seq<Event>, n: nat, c: nat)
    requires n <= |es| && n <= |ss|
  {
    forall m :: 0 <= m < n && Calls(ss[m], es[m], c) ==> Free(ss[m], c)
  }

  lemma RestUnacked(about: seq<Msg>)
    requires TargetShape(about)
    ensures forall p :: 1 <= p < |about| ==> !about[p].Ack?
  {
    forall p | 1 <= p < |about|
      ensures !about[p].Ack?
    {
      assert about[1..][p - 1] == about[p];
    }
  }

  lemma NoneBeforeAck(ms: seq<Msg>, j: nat)
    requires j < |ms| && ms[j].Ack? && TargetShape(Keep(Naming(ms[j].session), ms))
    ensures Keep(Naming(ms[j].session), ms[..j]) == []
  {
    var f := Naming(ms[j].session);
    var about, before := Keep(f, ms), Keep(f, ms[..j]);
    KeepAt(f, ms, j);
    RestUnacked(about);
    assert about[|before|] == ms[j];
  }

  /** Nothing about a session comes before the target's acknowledgement. */
  lemma AckIsFirst(ms: seq<Msg>, j: nat)
    requires j < |ms| && ms[j].Ack? && TargetShape(Keep(Naming(ms[j].session), ms))
    ensures forall h :: 0 <= h < j ==> !Names(ms[h], ms[j].session)
  {
    NoneBeforeAck(ms, j);
    KeepMembers(Naming(ms[j].session), ms[..j]);
    forall h | 0 <= h < j
      ensures !Naming(ms[j].session)(ms[h])
    {
      assert ms[h] in ms[..j];
    }
  }

  /** What is handed over about a session comes after the session's opening, at `r`. */
  lemma HandedAfterOpening(ss: seq<State>, es: seq<Event>, n: nat, c: nat, k: nat, r: nat)
    requires IsRun(ss, es) && r < n < |ss| && c < |ss[n].boxes| && k < |ss[n].boxes[c].sent|
    requires ss[n].boxes[c].sent[k].msg.Ack? && ss[n].boxes[c].sent[k].msg.session !in ss[r].records
    ensures c < |ss[r].boxes| ==> |ss[r].boxes[c].sent| <= k
  {
    var m := HandedAt(ss, es, n, c, k);
    ReachableInv(ss, es, m);
    HandedIsRecorded(ss[m], es[m], c, k, ss[n].boxes[c].sent[k].msg.session);
    if m <= r {
      RunGrows(ss, es, m, r);
      assert false;
    }
    RunGrows(ss, es, r, m);
  }

  /** A notice that `c` had been handed when `r` opened a session is early in what it is ever handed. */
  lemma GoneEarly(ss: seq<State>, es: seq<Event>, r: nat, n: nat, c: nat, sid: SessionId) returns (g: nat)
    requires IsRun(ss, es) && r <= n < |ss| && GoneHanded(ss[r], c, sid)
    ensures c < |ss[r].boxes| && c < |ss[n].boxes| && g < |ss[r].boxes[c].sent| <= |ss[n].boxes[c].sent|
    ensures var m := Bodies(ss[n].boxes[c].sent)[g]; m.PeerGone? && m.session == sid
  {
    RunGrows(ss, es, r, n);
    var l :| l in ss[r].boxes[c].sent && l.msg.PeerGone? && l.msg.session == sid;
    g :| 0 <= g < |ss[r].boxes[c].sent| && ss[r].boxes[c].sent[g] == l;
  }

  /** Both sessions known, the one opened first, at `r`, is known when the second is opened, at `r'`. */
  lemma OpenedEarlier(ss: seq<State>, es: seq<Event>, r: nat, r': nat, sid: SessionId)
    requires IsRun(ss, es) && r < r' < |ss| && RunHistory.Opens(ss[r], es[r], sid)
    ensures sid in ss[r'].records && ss[r'].records[sid] == OpenedRecord(ss[r], es[r])
  {
    RunStep(ss, es, r);
    assert ss[r + 1].records[sid] == OpenedRecord(ss[r], es[r]);
    RunGrows(ss, es, r + 1, r');
  }

  /** Two acknowledgements to a target that is called one at a time have the first one's notice between them. */
  lemma GoneBetween(ss: seq<State>, es: seq<Event>, n: nat, c: nat, j: nat, k: nat) returns (g: nat)
    requires IsRun(ss, es) && n < |ss| && c < |ss[n].boxes| && j < k < |ss[n].boxes[c].sent|
    requires OneAtATime(ss, es, n, c)
    requires forall sid :: sid in ss[n].records ==> ss[n].records[sid].initiator != c
    requires TargetStream(Bodies(ss[n].boxes[c].sent))
    requires ss[n].boxes[c].sent[j].msg.Ack? && ss[n].boxes[c].sent[k].msg.Ack?
    ensures j < g < k
    ensures ss[n].boxes[c].sent[g].msg.PeerGone?
    ensures ss[n].boxes[c].sent[g].msg.session == ss[n].boxes[c].sent[j].msg.session
  {
    var letters, ms := ss[n].boxes[c].sent, Bodies(ss[n].boxes[c].sent);
    var s1, s2 := letters[j].msg.session, letters[k].msg.session;
    Addressing(ss, es, n, c, letters[j], s1);
    Addressing(ss, es, n, c, letters[k], s2);
    assert TargetShape(Keep(Naming(s1), ms)) && TargetShape(Keep(Naming(s2), ms));
    AckIsFirst(ms, j);
    AckIsFirst(ms, k);
    assert !Names(ms[j], s2);
    var r1 := OpenedAt(ss, es, n, s1);
    var r2 := OpenedAt(ss, es, n, s2);
    if r1 < r2 {
      OpenedEarlier(ss, es, r1, r2, s1);
      assert Calls(ss[r2], es[r2], c) && Free(ss[r2], c);
      g := GoneEarly(ss, es, r2, n, c, s1);
      HandedAfterOpening(ss, es, n, c, k, r2);
    } else {
      OpenedEarlier(ss, es, r2, r1, s2);
      assert Calls(ss[r1], es[r1], c) && Free(ss[r1], c);
      g := GoneEarly(ss, es, r1, n, c, s2);
      HandedAfterOpening(ss, es, n, c, j, r1);
      assert false;
    }
  }

  /** A target called one at a time is handed, and sent, sequential sessions. */
  lemma OneAtATimeIsSequential(ss: seq<State>, es: seq<Event>, n: nat, c: nat)
    requires IsRun(ss, es) && n < |ss| && c < |ss[n].boxes| && OneAtATime(ss, es, n, c)
    requires forall sid :: sid in ss[n].records ==> ss[n].records[sid].initiator != c
    ensures Sequential(Bodies(ss[n].boxes[c].sent))
  {
    var ms := Bodies(ss[n].boxes[c].sent);
    HandedIsTargetStream(ss, es, n, c);
    forall j, k | 0 <= j < k < |ms| && TargetAck(ms[j]) && TargetAck(ms[k])
      ensures exists g :: j < g < k && ms[g].PeerGone? && ms[g].session == ms[j].session
    {
      var g := GoneBetween(ss, es, n, c, j, k);
      assert ms[g].PeerGone?;
    }
  }

  lemma SequentialPrefix(ms: seq<Msg>, all: seq<Msg>)
    requires ms <= all && Sequential(all)
    ensures Sequential(ms)
  {
    forall j, k | 0 <= j < k < |ms| && TargetAck(ms[j]) && TargetAck(ms[k])
      ensures exists g :: j < g < k && ms[g].PeerGone? && ms[g].session == ms[j].session
    {
      assert all[j] == ms[j] && all[k] == ms[k];
      var g :| j < g < k && all[g].PeerGone? && all[g].session == all[j].session;
      assert ms[g] == all[g];
    }
  }

  /**
   * End to end: if each session with the relay is opened only after the previous one's peer.gone
   * has been handed to it, then, until the relay's wire has got past the place where its connection
   * was closed, the relay applies every offer to a connection of the session it names. Past that
   * place a lost peer.gone can make it fail although sessions are sequential.
   */
  lemma RelayServesNamedSession(
      ss: seq<State>, es: seq<Event>, n: nat, c: nat, inputs: seq<Input>, configured: bool)
    requires IsRun(ss, es) && n < |ss| && c < |ss[n].boxes| && !PastClose(ss[n].boxes[c])
    requires forall sid :: sid in ss[n].records ==> ss[n].records[sid].initiator != c
    requires OneAtATime(ss, es, n, c)
    requires Stream(inputs) <= Bodies(ss[n].boxes[c].written)
    ensures OffersNameLive(After(inputs, configured))
  {
    OneAtATimeIsSequential(ss, es, n, c);
    WireIsHandedPrefix(ss, es, n, c);
    SequentialPrefix(Stream(inputs), Bodies(ss[n].boxes[c].sent));
    RelayServesSequentialStream(ss, es, n, c, inputs, configured);
  }
}
