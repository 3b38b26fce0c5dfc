/** The incremental line splitter that logs what ffmpeg writes to its standard error. */
module LogLines {
  import opened Basics
  import opened Sequences

  const NEWLINE: byte := 10
  const BUFFER_SIZE := 4096

  type Text = seq<byte>

  function Last(pieces: seq<Text>): Text
    requires |pieces| >= 1
  {
    pieces[|pieces| - 1]
  }

  function Front(pieces: seq<Text>): seq<Text>
    requires |pieces| >= 1
  {
    pieces[..|pieces| - 1]
  }

  /** The pieces after one more byte. */
  function Push(pieces: seq<Text>, b: byte): (r: seq<Text>)
    requires |pieces| >= 1
    ensures |r| >= 1
  {
    if b == NEWLINE then pieces + [[]] else Front(pieces) + [Last(pieces) + [b]]
  }

  /** The pieces of `s` between newlines; always at least one. */
  function Split(s: Text): (pieces: seq<Text>)
    ensures |pieces| >= 1
  {
    if s == [] then [[]] else Push(Split(s[..|s| - 1]), s[|s| - 1])
  }

  /** The inverse: the pieces with a newline between neighbours. */
  function Join(pieces: seq<Text>): Text
    requires |pieces| >= 1
  {
    if |pieces| == 1 then pieces[0] else Join(Front(pieces)) + [NEWLINE] + Last(pieces)
  }

  /** `Split` cuts at every newline and loses nothing. */
  lemma {:induction false} SplitSound(s: Text)
    ensures Join(Split(s)) == s
    ensures forall p <- Split(s) :: NEWLINE !in p
  {
    if s != [] {
      var k := |s| - 1;
      var before := Split(s[..k]);
      SplitSound(s[..k]);
      assert s == s[..k] + [s[k]];
      assert Last(before) in before;
      if s[k] == NEWLINE {
        assert Front(before + [[]]) == before;
        assert Join(before + [[]]) == Join(before) + [NEWLINE] + [];
      } else {
        assert Front(Split(s)) == Front(before);
        if |before| > 1 {
          assert Join(Split(s)) == Join(Front(before)) + [NEWLINE] + (Last(before) + [s[k]]);
          assert Join(Split(s)) == Join(before) + [s[k]];
        }
      }
    }
  }

  lemma SplitAppend(s: Text, b: byte)
    ensures Split(s + [b]) == Push(Split(s), b)
  {
    assert (s + [b])[..|s|] == s;
  }

  lemma PushLast(front: seq<Text>, pieces: seq<Text>, b: byte)
    requires |pieces| >= 1
    ensures Push(front + pieces, b) == front + Push(pieces, b)
  {
    assert Front(front + pieces) == front + Front(pieces);
    assert Last(front + pieces) == Last(pieces);
  }

  lemma {:induction false} SplitWhole(s: Text)
    requires NEWLINE !in s
    ensures Split(s) == [s]
  {
    if s != [] {
      var k := |s| - 1;
      SplitWhole(s[..k]);
      assert s == s[..k] + [s[k]];
    }
  }

  /** Splitting a longer text only re-splits its last piece. */
  lemma {:induction false} SplitExtend(s: Text, t: Text)
    ensures Split(s + t) == Front(Split(s)) + Split(Last(Split(s)) + t)
  {
    var c := Last(Split(s));
    if t == [] {
      assert s + t == s && c + t == c;
      SplitSound(s);
      SplitWhole(c);
    } else {
      var k := |t| - 1;
      SplitExtend(s, t[..k]);
      assert s + t == (s + t[..k]) + [t[k]];
      SplitAppend(s + t[..k], t[k]);
      assert c + t == (c + t[..k]) + [t[k]];
      SplitAppend(c + t[..k], t[k]);
      PushLast(Front(Split(s)), Split(c + t[..k]), t[k]);
    }
  }

  /** One call of `Read`: the bytes it put into the buffer, and whether it also returned an error. */
  datatype Read = Read(chunk: Text, err: bool)

  /** Reading ended with an error. */
  predicate Ended(calls: seq<Read>) {
    exists r :: r in calls && r.err
  }

  /** All bytes received, up to and including the read that returned an error. */
  function Received(calls: seq<Read>): Text {
    if calls == [] then []
    else
      var k := |calls| - 1;
      Received(calls[..k]) + (if Ended(calls[..k]) then [] else calls[k].chunk)
  }

  /** The test for lines that are dropped, negated. */
  function Visible(blank: Text -> bool): Text -> bool {
    (line: Text) => !blank(line)
  }

  /** The non-blank complete lines of a stream. */
  function Lines(total: Text, blank: Text -> bool): seq<Text> {
    Keep(Visible(blank), Front(Split(total)))
  }

  /** A complete line is logged if and only if it is not blank. */
  lemma LoggedExactly(total: Text, blank: Text -> bool)
    ensures forall line :: line in Lines(total, blank) <==> line in Front(Split(total)) && !blank(line)
  {
    KeepMembers(Visible(blank), Front(Split(total)));
  }

  /** What one pass over the whole stream logs. */
  function Batch(total: Text, ended: bool, blank: Text -> bool): seq<Text> {
    if ended && Last(Split(total)) != [] then Lines(total, blank) + [Last(Split(total))] else Lines(total, blank)
  }

  lemma {:induction false} NothingAfterEnd(calls: seq<Read>, n: nat)
    requires n <= |calls| && Ended(calls[..n])
    ensures Ended(calls) && Received(calls) == Received(calls[..n])
    decreases |calls|
  {
    if n == |calls| {
      assert calls[..n] == calls;
    } else {
      var k := |calls| - 1;
      assert calls[..k][..n] == calls[..n];
      NothingAfterEnd(calls[..k], n);
      FrontLast(calls);
    }
  }

  /** One more chunk completes the lines of the carry and the chunk together. */
  lemma ChunkLogs(total: Text, chunk: Text, blank: Text -> bool)
    ensures Last(Split(total + chunk)) == Last(Split(Last(Split(total)) + chunk))
    ensures Lines(total + chunk, blank) == Lines(total, blank) + Lines(Last(Split(total)) + chunk, blank)
  {
    SplitExtend(total, chunk);
    var lines := Split(Last(Split(total)) + chunk);
    assert Front(Split(total + chunk)) == Front(Split(total)) + Front(lines);
    KeepConcat(Visible(blank), Front(Split(total)), Front(lines));
  }

  /** One read into the reused buffer. */
  method Fill(buf: array<byte>, chunk: Text)
    requires |chunk| <= buf.Length
    modifies buf
    ensures buf[..|chunk|] == chunk
  {
    forall k | 0 <= k < |chunk| {
      buf[k] := chunk[k];
    }
  }

  /** Logs the lines that are not blank. */
  method LogVisible(lines: seq<Text>, blank: Text -> bool) returns (logged: seq<Text>)
    ensures logged == Keep(Visible(blank), lines)
  {
    logged := [];
    for i := 0 to |lines|
      invariant logged == Keep(Visible(blank), lines[..i])
    {
      assert lines[..i + 1] == lines[..i] + [lines[i]];
      KeepAppend(Visible(blank), lines[..i], lines[i]);
      if blank(lines[i]) {
        continue;
      }
      logged := logged + [lines[i]];
    }
    assert lines[..|lines|] == lines;
  }

  /** What has been carried and logged after the reads `calls`. */
  predicate Told(calls: seq<Read>, carry: Text, logged: seq<Text>, blank: Text -> bool) {
    && carry == Last(Split(Received(calls)))
    && logged == Lines(Received(calls), blank)
  }

  lemma ReadAppend(calls: seq<Read>, r: Read)
    requires !Ended(calls)
    ensures Ended(calls + [r]) <==> r.err
    ensures Received(calls + [r]) == Received(calls) + r.chunk
  {
    assert (calls + [r])[..|calls|] == calls;
    if r.err {
      assert r in calls + [r];
    }
  }

  /** One more read: its complete lines are logged, the rest is carried. */
  lemma ToldMore(calls: seq<Read>, r: Read, carry: Text, logged: seq<Text>, blank: Text -> bool)
    requires Told(calls, carry, logged, blank) && !Ended(calls)
    ensures NEWLINE !in carry
    ensures Told(calls + [r], Last(Split(carry + r.chunk)), logged + Lines(carry + r.chunk, blank), blank)
    ensures Ended(calls + [r]) <==> r.err
  {
    SplitSound(Received(calls));
    assert carry in Split(Received(calls));
    ReadAppend(calls, r);
    ChunkLogs(Received(calls), r.chunk, blank);
  }

  /** Before the first read. */
  lemma ToldNothing(blank: Text -> bool)
    ensures Told([], [], [], blank) && !Ended([])
  {
  }

  /** When reading has ended, the rest of the script does not matter and the remainder is logged. */
  lemma ToldAll(calls: seq<Read>, n: nat, carry: Text, logged: seq<Text>, blank: Text -> bool)
    requires n <= |calls| && Told(calls[..n], carry, logged, blank)
    requires Ended(calls[..n]) || n == |calls|
    ensures Batch(Received(calls), Ended(calls), blank) == logged + (if Ended(calls[..n]) && carry != [] then [carry] else [])
  {
    if Ended(calls[..n]) {
      NothingAfterEnd(calls, n);
    } else {
      assert calls[..n] == calls;
    }
  }

  /** The handling of what one read put into the buffer. */
  method OnRead(buf: array<byte>, got: nat, carry: Text, blank: Text -> bool) returns (carry': Text, logged: seq<Text>)
    requires got <= buf.Length && NEWLINE !in carry
    ensures carry' == Last(Split(carry + buf[..got]))
    ensures logged == Lines(carry + buf[..got], blank)
  {
    carry', logged := carry, [];
    if got > 0 {
      var lines := Split(carry + buf[..got]);
      carry' := lines[|lines| - 1];
      logged := LogVisible(lines[..|lines| - 1], blank);
    } else {
      assert carry + buf[..got] == carry;
      SplitWhole(carry);
    }
  }

  /** One read and its handling. */
  method TakeRead(
      buf: array<byte>, r: Read, carry: Text, logged: seq<Text>, blank: Text -> bool, ghost before: seq<Read>)
    returns (carry': Text, logged': seq<Text>)
    requires Told(before, carry, logged, blank) && !Ended(before) && |r.chunk| <= buf.Length
    modifies buf
    ensures Told(before + [r], carry', logged', blank)
    ensures Ended(before + [r]) <==> r.err
  {
    ToldMore(before, r, carry, logged, blank);
    Fill(buf, r.chunk);
    var lines;
    carry', lines := OnRead(buf, |r.chunk|, carry, blank);
    logged' := logged + lines;
  }

  /**
   * The logging loop, for the reads it gets and whatever `blank` means. However the stream is cut
   * into reads, it logs the non-blank pieces before the last newline and, when reading ends, the
   * remainder if there is one.
   */
  method LogFfmpegStderr(calls: seq<Read>, blank: Text -> bool) returns (logged: seq<Text>)
    requires forall r <- calls :: |r.chunk| <= BUFFER_SIZE
    ensures logged == Batch(Received(calls), Ended(calls), blank)
  {
    var buf := new byte[BUFFER_SIZE];
    var carry: Text := [];
    logged := [];
    ToldNothing(blank);
    var n := 0;
    while n < |calls|
      invariant n <= |calls|
      invariant Told(calls[..n], carry, logged, blank) && !Ended(calls[..n])
    {
      var r := calls[n];
      assert calls[..n + 1] == calls[..n] + [r];
      carry, logged := TakeRead(buf, r, carry, logged, blank, calls[..n]);
      n := n + 1;
      if r.err {
        ToldAll(calls, n, carry, logged, blank);
        if carry != [] {
          logged := logged + [carry];
        }
        return;
      }
    }
    ToldAll(calls, n, carry, logged, blank);
  }

  /**
   * The log line by line, of any stream in any reads. When reading has not ended: the complete
   * lines that are not blank. When it has: those and, last of all, the remainder after the last
   * newline unless it is empty, blank or not. Bytes that come with the error count, none after it.
   */
  lemma BatchExact(calls: seq<Read>, blank: Text -> bool)
    ensures var log := Batch(Received(calls), Ended(calls), blank);
            var pieces := Split(Received(calls));
            && (forall line :: line in Front(pieces) && !blank(line) ==> line in log)
            && (forall k :: 0 <= k < |log| ==>
                  || (log[k] in Front(pieces) && !blank(log[k]))
                  || (k == |log| - 1 && Ended(calls) && log[k] == Last(pieces) && log[k] != []))
            && (Ended(calls) && Last(pieces) != [] ==> log != [] && log[|log| - 1] == Last(pieces))
  {
    LoggedExactly(Received(calls), blank);
    var lines := Lines(Received(calls), blank);
    forall k | 0 <= k < |lines|
      ensures lines[k] in Front(Split(Received(calls))) && !blank(lines[k])
    {
      assert lines[k] in lines;
    }
  }
}
