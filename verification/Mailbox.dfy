/**
 * A peer's outbound side: the bounded channel, the one-shot close flag and the write loop,
 * together with the histories of what was handed to `Send` and what the socket accepted.
 */
module Mailbox {
  import opened Sequences

  const QUEUE_SIZE: nat := 32

  /** `Idle` before `run`, `Selecting` at the loop head, `Writing` inside the socket write. */
  datatype Writer<T> = Idle | Selecting | Writing(msg: T) | Stopped

  /** `mark` is the number of messages handed to `Send` before the step that closed the peer. */
  datatype Box<T> = Box(queue: seq<T>, closed: bool, writer: Writer<T>, sent: seq<T>, written: seq<T>, mark: nat)

  function NewBox<T>(): Box<T> {
    Box([], false, Idle, [], [], 0)
  }

  function Close<T>(b: Box<T>): Box<T> {
    if b.closed then b else b.(closed := true, mark := |b.sent|)
  }

  /** `Send`: queue the message, or close the peer when the queue is full. */
  function Send<T>(b: Box<T>, m: T): Box<T> {
    var b' := if |b.queue| < QUEUE_SIZE then b.(queue := b.queue + [m]) else Close(b);
    b'.(sent := b.sent + [m])
  }

  function SendAll<T>(b: Box<T>, ms: seq<T>): Box<T> {
    if ms == [] then b else Send(SendAll(b, ms[..|ms| - 1]), ms[|ms| - 1])
  }

  /** What one turn of the write loop's `select` can do; `done` says whether the context has ended. */
  datatype Turn = Take | WriteOk | WriteFail | PingOk | PingFail | Quit(done: bool)

  predicate CanTurn<T>(b: Box<T>, t: Turn) {
    match t
    case Take => b.writer.Selecting? && b.queue != []
    case WriteOk => b.writer.Writing?
    case WriteFail => b.writer.Writing?
    case PingOk => b.writer.Selecting?
    case PingFail => b.writer.Selecting?
    case Quit(done) => b.writer.Selecting? && (done || b.closed)
  }

  function TakeTurn<T>(b: Box<T>, t: Turn): Box<T>
    requires CanTurn(b, t)
  {
    match t
    case Take => b.(queue := b.queue[1..], writer := Writing(b.queue[0]))
    case WriteOk => b.(written := b.written + [b.writer.msg], writer := Selecting)
    case WriteFail => Close(b).(writer := Stopped)
    case PingOk => b
    case PingFail => Close(b).(writer := Stopped)
    case Quit(_) => b.(writer := Stopped)
  }

  /** The message inside the socket write, if any. */
  function InFlight<T>(w: Writer<T>): seq<T> {
    if w.Writing? then [w.msg] else []
  }

  /** Everything accepted and not lost: on the wire, being written, queued. */
  function Pipeline<T>(b: Box<T>): seq<T> {
    b.written + InFlight(b.writer) + b.queue
  }

  /** No skip before position `n`. */
  predicate AgreeUpTo<T(==)>(a: seq<T>, b: seq<T>, n: nat) {
    |a| <= |b| && forall k :: 0 <= k < |a| && k < n ==> a[k] == b[k]
  }

  /**
   * `xs` is what is left of `sent` when nothing is lost before position `mark` and what stood
   * at `mark` is: a prefix if it is short enough, otherwise resuming somewhere after `mark`.
   */
  predicate LosesFrom<T(==)>(xs: seq<T>, sent: seq<T>, mark: nat) {
    if |xs| <= mark then xs <= sent
    else mark < |sent| && xs[..mark] == sent[..mark] && Subsequence(xs[mark..], sent[mark + 1..])
  }

  /** A peer that is closed while its loop lives was closed by a `Send` that found the queue full. */
  predicate Sound<T(==)>(b: Box<T>) {
    && |b.queue| <= QUEUE_SIZE
    && b.mark <= |b.sent|
    && (b.writer.Idle? ==> b.written == [])
    && (!b.closed ==> Pipeline(b) == b.sent)
    && (b.closed && !b.writer.Stopped? ==>
          b.mark < |b.sent| && b.mark <= |Pipeline(b)| && LosesFrom(Pipeline(b), b.sent, b.mark))
    && (b.closed && b.writer.Stopped? ==> LosesFrom(b.written, b.sent, b.mark))
  }

  lemma NewBoxSound<T>()
    ensures Sound(NewBox<T>())
  {
  }

  lemma {:induction false} SubsequenceLength<T>(a: seq<T>, b: seq<T>)
    requires Subsequence(a, b)
    ensures |a| <= |b|
    decreases |b|
  {
    if a != [] {
      var i, j := |a| - 1, |b| - 1;
      if a[i] == b[j] && Subsequence(a[..i], b[..j]) {
        SubsequenceLength(a[..i], b[..j]);
      } else {
        SubsequenceLength(a, b[..j]);
      }
    }
  }

  lemma WrittenPrefix<T>(b: Box<T>)
    ensures b.written <= Pipeline(b)
  {
  }

  lemma LosesPrefix<T>(xs: seq<T>, ys: seq<T>, sent: seq<T>, mark: nat)
    requires xs <= ys && LosesFrom(ys, sent, mark)
    ensures LosesFrom(xs, sent, mark)
  {
    if |xs| > mark {
      SubsequencePrefix(xs[mark..], ys[mark..], sent[mark + 1..]);
    } else if |ys| > mark {
      assert xs <= ys[..mark];
    }
  }

  /** A message handed over after the close is left out, or queued behind everything else. */
  lemma LosesMore<T>(xs: seq<T>, sent: seq<T>, mark: nat, m: T)
    requires LosesFrom(xs, sent, mark)
    ensures LosesFrom(xs, sent + [m], mark)
  {
    if mark < |sent| {
      assert (sent + [m])[mark + 1..] == sent[mark + 1..] + [m];
      assert (sent + [m])[..mark] == sent[..mark];
      if mark < |xs| {
        SubsequenceSkip(xs[mark..], sent[mark + 1..], m);
      }
    }
  }

  lemma LosesButKeeps<T>(xs: seq<T>, sent: seq<T>, mark: nat, m: T)
    requires LosesFrom(xs, sent, mark) && mark < |sent| && mark <= |xs|
    ensures LosesFrom(xs + [m], sent + [m], mark)
  {
    assert (sent + [m])[mark + 1..] == sent[mark + 1..] + [m];
    assert (sent + [m])[..mark] == sent[..mark];
    assert (xs + [m])[mark..] == xs[mark..] + [m];
    assert (xs + [m])[..mark] == xs[..mark];
    SubsequenceMatch(xs[mark..], sent[mark + 1..], m);
  }

  lemma SendKeepsSound<T>(b: Box<T>, m: T)
    requires Sound(b)
    ensures Sound(Send(b, m))
  {
    if |b.queue| < QUEUE_SIZE {
      assert Pipeline(Send(b, m)) == Pipeline(b) + [m];
    } else {
      assert Pipeline(Send(b, m)) == Pipeline(b);
    }
    if !b.closed {
      WrittenPrefix(b);
    } else if b.writer.Stopped? {
      LosesMore(b.written, b.sent, b.mark, m);
    } else if |b.queue| < QUEUE_SIZE {
      LosesButKeeps(Pipeline(b), b.sent, b.mark, m);
    } else {
      LosesMore(Pipeline(b), b.sent, b.mark, m);
    }
  }

  /** An open peer queues what it is sent, and is closed by it, losing it, if and only if 32 messages are queued. */
  lemma SendExact<T>(b: Box<T>, m: T)
    requires Sound(b) && !b.closed
    ensures var b' := Send(b, m);
            && |b.queue| <= 32
            && (b'.closed <==> |b.queue| == 32)
            && b'.queue == b.queue + (if |b.queue| == 32 then [] else [m])
            && b'.sent == b.sent + [m] && b'.written == b.written && b'.writer == b.writer
  {
  }

  /** Stopping, with or without closing, loses at most what was not yet written. */
  lemma StopKeepsSound<T>(b: Box<T>, b': Box<T>)
    requires Sound(b) && !b.writer.Stopped? && !b.writer.Idle?
    requires b' == Close(b).(writer := Stopped) || (b' == b.(writer := Stopped) && b.writer.Selecting?)
    ensures Sound(b')
  {
    WrittenPrefix(b);
    if b.closed {
      LosesPrefix(b.written, Pipeline(b), b.sent, b.mark);
    } else if !b'.closed {
      assert Pipeline(b') == Pipeline(b);
    }
  }

  lemma TurnKeepsSound<T>(b: Box<T>, t: Turn)
    requires Sound(b) && CanTurn(b, t)
    ensures Sound(TakeTurn(b, t))
  {
    var b' := TakeTurn(b, t);
    match t {
      case Take => assert Pipeline(b') == Pipeline(b);
      case WriteOk => assert Pipeline(b') == Pipeline(b);
      case PingOk =>
      case WriteFail => StopKeepsSound(b, b');
      case PingFail => StopKeepsSound(b, b');
      case Quit(_) => StopKeepsSound(b, b');
    }
  }

  lemma StartKeepsSound<T>(b: Box<T>)
    requires Sound(b) && b.writer.Idle?
    ensures Sound(b.(writer := Selecting))
  {
    assert Pipeline(b.(writer := Selecting)) == Pipeline(b);
  }

  /** While the peer is open nothing is lost, reordered or duplicated, and at most 33 messages lag. */
  lemma NoSilentLoss<T>(b: Box<T>)
    requires Sound(b) && !b.closed
    ensures b.written + InFlight(b.writer) + b.queue == b.sent
    ensures b.written <= b.sent
    ensures |b.sent| - |b.written| <= QUEUE_SIZE + 1
  {
    assert |Pipeline(b)| == |b.sent|;
    WrittenPrefix(b);
  }

  lemma {:induction false} SubsequenceAfter<T>(p: seq<T>, a: seq<T>, q: seq<T>, b: seq<T>)
    requires Subsequence(a, b)
    ensures Subsequence(p + a, p + q + b)
    decreases |q| + |b|
  {
    if b != [] {
      var j := |b| - 1;
      assert p + q + b == (p + q + b[..j]) + [b[j]];
      if a != [] && a[|a| - 1] == b[j] && Subsequence(a[..|a| - 1], b[..j]) {
        SubsequenceAfter(p, a[..|a| - 1], q, b[..j]);
        assert p + a == (p + a[..|a| - 1]) + [a[|a| - 1]];
        SubsequenceMatch(p + a[..|a| - 1], p + q + b[..j], b[j]);
      } else {
        SubsequenceAfter(p, a, q, b[..j]);
        SubsequenceSkip(p + a, p + q + b[..j], b[j]);
      }
    } else if q != [] {
      var j := |q| - 1;
      SubsequenceAfter(p, a, q[..j], []);
      assert p + q + b == (p + q[..j] + []) + [q[j]];
      SubsequenceSkip(p + a, p + q[..j] + [], q[j]);
    } else {
      assert p + a == p + q + b;
      SubsequenceReflexive(p + a);
    }
  }

  lemma LosesIsSubsequence<T>(xs: seq<T>, sent: seq<T>, mark: nat)
    requires LosesFrom(xs, sent, mark)
    ensures Subsequence(xs, sent)
    ensures AgreeUpTo(xs, sent, mark)
  {
    if |xs| <= mark {
      SubsequenceReflexive(sent);
      SubsequencePrefix(xs, sent, sent);
    } else {
      assert xs == sent[..mark] + xs[mark..];
      assert sent == sent[..mark] + [sent[mark]] + sent[mark + 1..];
      SubsequenceAfter(sent[..mark], xs[mark..], [sent[mark]], sent[mark + 1..]);
    }
    SubsequenceLength(xs, sent);
  }

  /** On the wire of a closed peer. */
  lemma WireLoses<T>(b: Box<T>)
    requires Sound(b) && b.closed
    ensures LosesFrom(b.written, b.sent, b.mark)
  {
    if !b.writer.Stopped? {
      WrittenPrefix(b);
      LosesPrefix(b.written, Pipeline(b), b.sent, b.mark);
    }
  }

  /**
   * At all times the wire carries a subsequence of what was handed to `Send`, and nothing is
   * skipped among the messages handed over before the closing step.
   */
  lemma WireIsSubsequence<T>(b: Box<T>)
    requires Sound(b)
    ensures Subsequence(b.written, b.sent)
    ensures AgreeUpTo(b.written, b.sent, if b.closed then b.mark else |b.sent|)
  {
    if b.closed {
      WireLoses(b);
      LosesIsSubsequence(b.written, b.sent, b.mark);
    } else {
      WrittenPrefix(b);
      SubsequenceReflexive(b.sent);
      SubsequencePrefix(b.written, b.sent, b.sent);
    }
  }

  predicate AllDifferent<T(==)>(xs: seq<T>) {
    forall i, j :: 0 <= i < j < |xs| ==> xs[i] != xs[j]
  }

  /** The wire has got past the place where the peer was closed. */
  predicate PastClose<T>(b: Box<T>) {
    b.closed && |b.written| > b.mark
  }

  lemma {:induction false} SubsequenceMembers<T>(a: seq<T>, b: seq<T>)
    requires Subsequence(a, b)
    ensures forall x <- a :: x in b
    decreases |b|
  {
    if a != [] {
      var i, j := |a| - 1, |b| - 1;
      FrontLast(a);
      FrontLast(b);
      if a[i] == b[j] && Subsequence(a[..i], b[..j]) {
        SubsequenceMembers(a[..i], b[..j]);
      } else {
        SubsequenceMembers(a, b[..j]);
      }
    }
  }

  /**
   * Exactly when delivery is a prefix. Up to the place of the close it is one; once the wire has
   * got past it, the message whose hand-over closed the peer is left out, what follows on the
   * wire was handed over later, and no two equal messages being there to be mistaken for one
   * another, the wire is no prefix of what was handed over.
   */
  lemma PrefixExact<T>(b: Box<T>)
    requires Sound(b)
    ensures !PastClose(b) ==> b.written <= b.sent
    ensures PastClose(b) ==>
              && b.mark < |b.sent| && b.written[..b.mark] == b.sent[..b.mark]
              && Subsequence(b.written[b.mark..], b.sent[b.mark + 1..])
    ensures AllDifferent(b.sent) ==> (b.written <= b.sent <==> !PastClose(b))
  {
    if b.closed {
      WireLoses(b);
    } else {
      WrittenPrefix(b);
    }
    if PastClose(b) {
      var after := b.written[b.mark..];
      SubsequenceMembers(after, b.sent[b.mark + 1..]);
      assert after[0] in b.sent[b.mark + 1..];
      var k :| 0 <= k < |b.sent[b.mark + 1..]| && b.sent[b.mark + 1..][k] == after[0];
      assert b.sent[b.mark + 1 + k] == b.written[b.mark];
    }
  }

  // ----- the close comes a moment after the full queue is seen -----

  /** `d` is `b` with the close perhaps still to come. */
  predicate Covers<T(==)>(b: Box<T>, d: Box<T>) {
    && b.queue == d.queue && b.writer == d.writer && b.sent == d.sent && b.written == d.written
    && (d.closed ==> b.closed)
  }

  /** `Send` up to, but not including, the close that a full queue leads to. */
  function Offer<T>(d: Box<T>, m: T): Box<T> {
    (if |d.queue| < QUEUE_SIZE then d.(queue := d.queue + [m]) else d).(sent := d.sent + [m])
  }

  /**
   * `Send` closes a full peer in one step. In the code the write loop and other senders may act
   * between the refused queueing and the close; whatever they do then they can also do, with the
   * same queue, wire and histories, after the close. So `closed` reads: closed, or bound to be.
   */
  lemma LateCloseCovered<T>(b: Box<T>, d: Box<T>, m: T, t: Turn)
    requires Covers(b, d)
    ensures Covers(Send(b, m), Offer(d, m))
    ensures |d.queue| >= QUEUE_SIZE ==> Send(b, m).closed
    ensures b.closed ==> Covers(b, Close(d))
    ensures CanTurn(d, t) ==> CanTurn(b, t) && Covers(TakeTurn(b, t), TakeTurn(d, t))
  {
  }

  // ----- a wire that is no prefix -----

  /** The write loop empties the queue, every write succeeding. */
  function Emptied<T>(b: Box<T>): Box<T>
    requires b.writer.Selecting?
    decreases |b.queue|
  {
    if b.queue == [] then b else Emptied(TakeTurn(TakeTurn(b, Take), WriteOk))
  }

  lemma {:induction false} EmptiedWrites<T>(b: Box<T>)
    requires b.writer.Selecting?
    ensures Emptied(b) == b.(queue := [], written := b.written + b.queue)
    decreases |b.queue|
  {
    if b.queue == [] {
      assert b.written + b.queue == b.written;
    } else {
      var c := TakeTurn(TakeTurn(b, Take), WriteOk);
      EmptiedWrites(c);
      assert b.queue == [b.queue[0]] + b.queue[1..];
      assert c.written + c.queue == b.written + b.queue;
    }
  }

  /** A full open box is sent `m1`, which closes it, takes one message off, is sent `m2`, and is emptied. */
  function Overtaken<T>(b: Box<T>, m1: T, m2: T): Box<T>
    requires b.writer.Selecting? && |b.queue| == QUEUE_SIZE
  {
    Emptied(TakeTurn(Send(TakeTurn(Send(b, m1), Take), m2), WriteOk))
  }

  /**
   * After the close the wire can leave a message out and still carry a later one: the queue may
   * drain by one between two sends, so delivery is not a prefix of what was handed over.
   */
  lemma LateSendOvertakes<T>(b: Box<T>, m1: T, m2: T)
    requires Sound(b) && !b.closed && b.writer.Selecting? && |b.queue| == QUEUE_SIZE && m1 != m2
    ensures var b' := Overtaken(b, m1, m2);
            && b'.sent == b.sent + [m1, m2]
            && b'.written == b.sent + [m2]
            && !(b'.written <= b'.sent)
  {
    var c := TakeTurn(Send(TakeTurn(Send(b, m1), Take), m2), WriteOk);
    assert b.queue == [b.queue[0]] + b.queue[1..];
    assert b.sent + [m1] + [m2] == b.sent + [m1, m2];
    EmptiedWrites(c);
    assert c.written + c.queue == Pipeline(b) + [m2];
    var b' := Overtaken(b, m1, m2);
    assert b'.sent[|b.sent|] == m1 && b'.written[|b.sent|] == m2;
  }
}
