/**
 * What the relay does, read off its input stream alone: which connection it holds, whether its
 * camera runs, and which effects each input is due. The loop's own variables appear only in the
 * lemmas that tie it to these.
 */
module RelayEffects {
  import opened Basics
  import opened Sequences
  import opened Messages
  import opened Relay

  // ----- what a stream calls for -----

  /** A session in which the relay answers is acknowledged. */
  predicate Acknowledges(i: Input) {
    i.Frame? && i.msg.Ack? && !i.msg.initiator
  }

  /** The acknowledgements for which a connection could be set up, as the connections made. */
  function Makes(inputs: seq<Input>): seq<Pc> {
    if inputs == [] then []
    else
      var before, i := Makes(inputs[..|inputs| - 1]), inputs[|inputs| - 1];
      before + (if Acknowledges(i) && i.ops.setup then [Pc(|before|, i.msg.session)] else [])
  }

  /** The session acknowledged last, whether or not its connection could be set up. */
  function Named(inputs: seq<Input>): SessionId {
    if inputs == [] then ""
    else
      var i := inputs[|inputs| - 1];
      if Acknowledges(i) then i.msg.session else Named(inputs[..|inputs| - 1])
  }

  /** The last acknowledgement, unless the session has gone or the set-up has failed. */
  function Held(inputs: seq<Input>): Option<Pc> {
    if inputs == [] then None
    else
      var before, i := inputs[..|inputs| - 1], inputs[|inputs| - 1];
      if Acknowledges(i) then if i.ops.setup then Some(Pc(|Makes(before)|, i.msg.session)) else None
      else if i.Frame? && i.msg.PeerGone? then None
      else Held(before)
  }

  /** After `before`, `i` is an offer that the held connection accepts. */
  predicate Accepts(before: seq<Input>, i: Input) {
    Held(before).Some? && i.Frame? && i.msg.PeerSdp? && i.msg.role == "offer" && i.ops.setRemote
  }

  /** A camera, if one is configured, has been started and feeds the held connection. */
  function Filmed(inputs: seq<Input>): bool {
    if inputs == [] then false
    else
      var before, i := inputs[..|inputs| - 1], inputs[|inputs| - 1];
      if Acknowledges(i) || (i.Frame? && i.msg.PeerGone?) then false
      else Filmed(before) || (Accepts(before, i) && i.ops.startCamera && i.ops.addTrack)
  }

  /** How often a configured camera has been started. */
  function Started(inputs: seq<Input>): nat {
    if inputs == [] then 0
    else
      var before, i := inputs[..|inputs| - 1], inputs[|inputs| - 1];
      Started(before) + (if Accepts(before, i) && !Filmed(before) && i.ops.startCamera then 1 else 0)
  }

  /** The clean-up of a session: the connection first, then the camera. */
  function Teardown(before: seq<Input>, configured: bool): seq<Effect> {
    (match Held(before) case Some(pc) => [PcClosed(pc.id)] case None => [])
    + (if configured && Filmed(before) && Started(before) > 0 then [CameraClosed(Started(before) - 1)] else [])
  }

  /** What comes between the acceptance of an offer and its answer. */
  function Video(before: seq<Input>, pc: Pc, ops: Ops, configured: bool): seq<Effect> {
    if !configured || Filmed(before) || !ops.startCamera then []
    else
      [CameraStarted(Started(before))]
      + [if ops.addTrack then TrackAdded(pc.id, Started(before)) else CameraClosed(Started(before))]
  }

  /** The effects that the input `i` is due after `before`, in order. */
  function Due(before: seq<Input>, i: Input, configured: bool): seq<Effect> {
    match i
    case Garbage => []
    case Gathered(k) => if k < |Makes(before)| then [CandidateSent(k, Makes(before)[k].session)] else []
    case Frame(m, ops) =>
      if Acknowledges(i) then
        Teardown(before, configured) + (if ops.setup then [PcOpened(Pc(|Makes(before)|, m.session))] else [])
      else if m.PeerGone? then Teardown(before, configured)
      else match Held(before)
        case None => []
        case Some(pc) =>
          if Accepts(before, i) then
            [OfferApplied(pc.id, m.session)] + Video(before, pc, ops, configured)
            + (if ops.createAnswer && ops.setLocal && ops.write then [AnswerSent(pc.id, pc.session)] else [])
          else if m.PeerIce? && ops.decodeCand && ops.addCand then [CandidateApplied(pc.id)]
          else []
  }

  function AllDue(inputs: seq<Input>, configured: bool): seq<Effect> {
    if inputs == [] then []
    else
      AllDue(inputs[..|inputs| - 1], configured)
      + Due(inputs[..|inputs| - 1], inputs[|inputs| - 1], configured)
  }

  /** The clean-up on return: the camera first, then the connection. */
  function FinallyDue(inputs: seq<Input>, configured: bool): seq<Effect> {
    (if configured && Filmed(inputs) && Started(inputs) > 0 then [CameraClosed(Started(inputs) - 1)] else [])
    + (match Held(inputs) case Some(pc) => [PcClosed(pc.id)] case None => [])
  }

  // ----- the loop does it -----

  /** The loop's variables are what the stream calls for. */
  predicate Follows(l: Loop, inputs: seq<Input>, configured: bool) {
    && l.made == Makes(inputs)
    && l.pc == Held(inputs) && l.session == Named(inputs)
    && (l.pc.Some? ==> l.session == l.pc.value.session)
    && (l.camera.Some? <==> configured && Filmed(inputs))
    && (configured ==> l.cams == Started(inputs))
    && (l.camera.Some? ==> l.cams > 0 && l.camera.value == l.cams - 1)
    && l.trace == AllDue(inputs, configured)
  }

  lemma Last(inputs: seq<Input>, i: Input)
    ensures (inputs + [i])[..|inputs|] == inputs
  {
  }

  lemma TeardownFollows(l: Loop, inputs: seq<Input>, configured: bool)
    requires Follows(l, inputs, configured)
    ensures CloseCamera(ClosePc(l)).trace == l.trace + Teardown(inputs, configured)
    ensures CloseCamera(ClosePc(l))
         == l.(pc := None, camera := None, trace := CloseCamera(ClosePc(l)).trace)
  {
  }

  lemma AckFollows(l: Loop, before: seq<Input>, i: Input, configured: bool)
    requires Follows(l, before, configured) && Acknowledges(i)
    ensures Follows(OnInput(l, i, configured), before + [i], configured)
  {
    Last(before, i);
    TeardownFollows(l, before, configured);
  }

  lemma GoneFollows(l: Loop, before: seq<Input>, i: Input, configured: bool)
    requires Follows(l, before, configured) && i.Frame? && i.msg.PeerGone?
    ensures Follows(OnInput(l, i, configured), before + [i], configured)
  {
    Last(before, i);
    TeardownFollows(l, before, configured);
  }

  /** The camera's part in handling an accepted offer. */
  lemma VideoFollows(l: Loop, before: seq<Input>, i: Input, configured: bool, trace: seq<Effect>)
    requires Follows(l, before, configured) && Accepts(before, i)
    ensures var c := EnsureCamera(l.(trace := trace), configured, i.ops);
            && c.trace == trace + Video(before, Held(before).value, i.ops, configured)
            && (c.camera.Some? <==> configured && Filmed(before + [i]))
            && (configured ==> c.cams == Started(before + [i]))
            && (c.camera.Some? ==> c.cams > 0 && c.camera.value == c.cams - 1)
            && c.pc == l.pc && c.made == l.made && c.session == l.session
  {
    Last(before, i);
  }

  lemma OfferFollows(l: Loop, before: seq<Input>, i: Input, configured: bool)
    requires Follows(l, before, configured) && Accepts(before, i)
    ensures Follows(OnInput(l, i, configured), before + [i], configured)
  {
    Last(before, i);
    VideoFollows(l, before, i, configured, l.trace + [OfferApplied(l.pc.value.id, i.msg.session)]);
    assert AllDue(before + [i], configured) == AllDue(before, configured) + Due(before, i, configured);
  }

  lemma RestFollows(l: Loop, before: seq<Input>, i: Input, configured: bool)
    requires Follows(l, before, configured) && !Acknowledges(i) && !Accepts(before, i)
    requires !(i.Frame? && i.msg.PeerGone?)
    ensures Follows(OnInput(l, i, configured), before + [i], configured)
  {
    Last(before, i);
    assert AllDue(before + [i], configured) == AllDue(before, configured) + Due(before, i, configured);
  }

  lemma {:induction false} LoopFollows(inputs: seq<Input>, configured: bool)
    ensures Follows(After(inputs, configured), inputs, configured)
  {
    if inputs != [] {
      var before, i := inputs[..|inputs| - 1], inputs[|inputs| - 1];
      assert inputs == before + [i];
      LoopFollows(before, configured);
      var l := After(before, configured);
      if Acknowledges(i) {
        AckFollows(l, before, i, configured);
      } else if i.Frame? && i.msg.PeerGone? {
        GoneFollows(l, before, i, configured);
      } else if Accepts(before, i) {
        OfferFollows(l, before, i, configured);
      } else {
        RestFollows(l, before, i, configured);
      }
    }
  }

  /**
   * Exactly what the relay does: for every stream, every pattern of failures and either camera
   * configuration, its effects are those that each input is due, in order, and then the clean-up.
   */
  lemma EffectsExact(inputs: seq<Input>, configured: bool)
    ensures Return(After(inputs, configured)).trace == AllDue(inputs, configured) + FinallyDue(inputs, configured)
  {
    LoopFollows(inputs, configured);
  }

  /** The variables at every loop head, read off the stream. */
  lemma LoopHeadExact(inputs: seq<Input>, configured: bool)
    ensures var l := After(inputs, configured);
            && l.pc == Held(inputs) && l.session == Named(inputs) && l.made == Makes(inputs)
            && (l.camera.Some? <==> configured && Filmed(inputs))
            && (configured ==> l.cams == Started(inputs))
  {
    LoopFollows(inputs, configured);
  }

  // ----- counted -----

  /** `i` is an offer accepted by the connection `k`, and everything up to the answer succeeds. */
  predicate Answerable(before: seq<Input>, i: Input, k: nat) {
    Accepts(before, i) && Held(before).value.id == k && i.ops.createAnswer && i.ops.setLocal && i.ops.write
  }

  predicate AcceptedBy(before: seq<Input>, i: Input, k: nat) {
    Accepts(before, i) && Held(before).value.id == k
  }

  /** `i` is a candidate that the held connection `k` takes. */
  predicate TakenBy(before: seq<Input>, i: Input, k: nat) {
    Held(before).Some? && Held(before).value.id == k && i.Frame? && i.msg.PeerIce? && i.ops.decodeCand && i.ops.addCand
  }

  /** The number of inputs that satisfy `p`, given the inputs before them. */
  function Tally(p: (seq<Input>, Input) -> bool, inputs: seq<Input>): nat {
    if inputs == [] then 0
    else
      Tally(p, inputs[..|inputs| - 1]) + (if p(inputs[..|inputs| - 1], inputs[|inputs| - 1]) then 1 else 0)
  }

  function Candidates(id: nat): Effect -> bool {
    (e: Effect) => e.CandidateApplied? && e.id == id
  }

  /** Counting an effect that every input is due once or not at all. */
  lemma {:induction false} CountIsTally(
      f: Effect -> bool, p: (seq<Input>, Input) -> bool, inputs: seq<Input>, configured: bool)
    requires forall before, i :: Count(f, Due(before, i, configured)) == if p(before, i) then 1 else 0
    ensures Count(f, AllDue(inputs, configured)) == Tally(p, inputs)
  {
    if inputs != [] {
      var before, i := inputs[..|inputs| - 1], inputs[|inputs| - 1];
      CountIsTally(f, p, before, configured);
      KeepConcat(f, AllDue(before, configured), Due(before, i, configured));
    }
  }

  lemma CleanUpCloses(inputs: seq<Input>, configured: bool)
    ensures forall e <- FinallyDue(inputs, configured) :: e.CameraClosed? || e.PcClosed?
  {
  }

  /** An effect of which the clean-up holds none. */
  lemma CountInRun(f: Effect -> bool, inputs: seq<Input>, configured: bool)
    requires forall e <- FinallyDue(inputs, configured) :: !f(e)
    ensures Count(f, Return(After(inputs, configured)).trace) == Count(f, AllDue(inputs, configured))
  {
    EffectsExact(inputs, configured);
    CountApart(f, AllDue(inputs, configured), FinallyDue(inputs, configured));
  }

  lemma CountApart(f: Effect -> bool, es: seq<Effect>, fs: seq<Effect>)
    requires forall e <- fs :: !f(e)
    ensures Count(f, es + fs) == Count(f, es)
  {
    KeepConcat(f, es, fs);
    KeepNone(f, fs);
  }

  lemma CountFew(f: Effect -> bool, es: seq<Effect>, fs: seq<Effect>, gs: seq<Effect>)
    requires forall e <- es + fs :: !f(e)
    requires |gs| <= 1
    ensures Count(f, es + fs + gs) == if gs != [] && f(gs[0]) then 1 else 0
  {
    KeepConcat(f, es + fs, gs);
    KeepNone(f, es + fs);
    if gs != [] {
      assert gs == [gs[0]];
      KeepSingle(f, gs[0]);
    }
  }

  lemma AnswerDue(k: nat, before: seq<Input>, i: Input, configured: bool)
    ensures Count(Answers(k), Due(before, i, configured)) == if Answerable(before, i, k) then 1 else 0
  {
    if Accepts(before, i) {
      var pc := Held(before).value;
      VideoEffects(before, pc, i.ops, configured);
      CountFew(Answers(k), [OfferApplied(pc.id, i.msg.session)], Video(before, pc, i.ops, configured),
               if i.ops.createAnswer && i.ops.setLocal && i.ops.write then [AnswerSent(pc.id, pc.session)] else []);
    } else {
      NoOfferDue(before, i, configured);
      KeepNone(Answers(k), Due(before, i, configured));
    }
  }

  lemma VideoEffects(before: seq<Input>, pc: Pc, ops: Ops, configured: bool)
    ensures forall e <- Video(before, pc, ops, configured) :: e.CameraStarted? || e.TrackAdded? || e.CameraClosed?
  {
  }

  lemma CountFirst(f: Effect -> bool, first: Effect, rest: seq<Effect>)
    requires forall e <- rest :: !f(e)
    ensures Count(f, [first] + rest) == if f(first) then 1 else 0
  {
    CountApart(f, [first], rest);
    KeepSingle(f, first);
  }

  lemma OfferDue(k: nat, before: seq<Input>, i: Input, configured: bool)
    ensures Count(Offers(k), Due(before, i, configured)) == if AcceptedBy(before, i, k) then 1 else 0
  {
    if Accepts(before, i) {
      var pc := Held(before).value;
      var first := OfferApplied(pc.id, i.msg.session);
      var answer := if i.ops.createAnswer && i.ops.setLocal && i.ops.write then [AnswerSent(pc.id, pc.session)] else [];
      VideoEffects(before, pc, i.ops, configured);
      var rest := Video(before, pc, i.ops, configured) + answer;
      assert Due(before, i, configured) == [first] + rest;
      CountFirst(Offers(k), first, rest);
    } else {
      NoOfferDue(before, i, configured);
      KeepNone(Offers(k), Due(before, i, configured));
    }
  }

  /** An input that is no accepted offer is due no offer and no answer. */
  lemma NoOfferDue(before: seq<Input>, i: Input, configured: bool)
    requires !Accepts(before, i)
    ensures forall e <- Due(before, i, configured) :: !e.OfferApplied? && !e.AnswerSent?
  {
  }

  lemma CandidateDue(k: nat, before: seq<Input>, i: Input, configured: bool)
    ensures Count(Candidates(k), Due(before, i, configured)) == if TakenBy(before, i, k) then 1 else 0
  {
    if Held(before).Some? && TakenBy(before, i, Held(before).value.id) {
      KeepSingle(Candidates(k), CandidateApplied(Held(before).value.id));
    } else {
      NoCandidateDue(before, i, configured);
      KeepNone(Candidates(k), Due(before, i, configured));
    }
  }

  lemma NoCandidateDue(before: seq<Input>, i: Input, configured: bool)
    requires Held(before).Some? ==> !TakenBy(before, i, Held(before).value.id)
    ensures forall e <- Due(before, i, configured) :: !e.CandidateApplied?
  {
  }

  /**
   * For every stream and pattern of failures: a connection sends exactly one answer for each offer
   * it accepts whose answer can be made, set and written; accepts exactly the offers it can; and
   * takes exactly the candidates that decode and can be added while it is held.
   */
  lemma AnswersExact(inputs: seq<Input>, configured: bool, k: nat)
    ensures var trace := Return(After(inputs, configured)).trace;
            && Count(Answers(k), trace) == Tally((before, i) => Answerable(before, i, k), inputs)
            && Count(Offers(k), trace) == Tally((before, i) => AcceptedBy(before, i, k), inputs)
            && Count(Candidates(k), trace) == Tally((before, i) => TakenBy(before, i, k), inputs)
  {
    forall before, i
      ensures Count(Answers(k), Due(before, i, configured)) == if Answerable(before, i, k) then 1 else 0
      ensures Count(Offers(k), Due(before, i, configured)) == if AcceptedBy(before, i, k) then 1 else 0
      ensures Count(Candidates(k), Due(before, i, configured)) == if TakenBy(before, i, k) then 1 else 0
    {
      AnswerDue(k, before, i, configured);
      OfferDue(k, before, i, configured);
      CandidateDue(k, before, i, configured);
    }
    CountIsTally(Answers(k), (before, i) => Answerable(before, i, k), inputs, configured);
    CountIsTally(Offers(k), (before, i) => AcceptedBy(before, i, k), inputs, configured);
    CountIsTally(Candidates(k), (before, i) => TakenBy(before, i, k), inputs, configured);
    CleanUpCloses(inputs, configured);
    CountInRun(Answers(k), inputs, configured);
    CountInRun(Offers(k), inputs, configured);
    CountInRun(Candidates(k), inputs, configured);
  }

  lemma {:induction false} TallySame(
      p: (seq<Input>, Input) -> bool, q: (seq<Input>, Input) -> bool, inputs: seq<Input>)
    requires forall n :: 0 <= n < |inputs| ==> (p(inputs[..n], inputs[n]) <==> q(inputs[..n], inputs[n]))
    ensures Tally(p, inputs) == Tally(q, inputs)
  {
    if inputs != [] {
      var before := inputs[..|inputs| - 1];
      forall n | 0 <= n < |before|
        ensures p(before[..n], before[n]) <==> q(before[..n], before[n])
      {
        assert before[..n] == inputs[..n] && before[n] == inputs[n];
      }
      TallySame(p, q, before);
    }
  }

  /** If no answer fails to be made, set or written, every accepted offer is answered. */
  lemma EveryOfferAnswered(inputs: seq<Input>, configured: bool, k: nat)
    requires forall i <- inputs :: i.Frame? ==> i.ops.createAnswer && i.ops.setLocal && i.ops.write
    ensures var trace := Return(After(inputs, configured)).trace; Count(Answers(k), trace) == Count(Offers(k), trace)
  {
    AnswersExact(inputs, configured, k);
    forall n | 0 <= n < |inputs|
      ensures Answerable(inputs[..n], inputs[n], k) <==> AcceptedBy(inputs[..n], inputs[n], k)
    {
      assert inputs[n] in inputs;
    }
    TallySame((before, i) => Answerable(before, i, k), (before, i) => AcceptedBy(before, i, k), inputs);
  }
}
