// What a client makes of the adapter's stream: section 9.2.6 of the WHATWG HTML Living Standard
// has the stream decoded as UTF-8 and then parsed.
module SseClient {
  import opened Bytes
  import opened Utf8
  import opened EventStreamParser
  import opened SseAdapter

  function Client(s: seq<byte>): Parser {
    FeedAll(START, Decode(s))
  }

  // A frame as the client gets it.
  function Repaired(output: SseAdapter.Output): SseAdapter.Output {
    if output.Frame? then Frame(Repair(output.frame)) else output
  }

  function RepairedAll(outputs: seq<SseAdapter.Output>): (r: seq<SseAdapter.Output>)
    ensures |r| == |outputs| && forall i | 0 <= i < |r| :: r[i] == Repaired(outputs[i])
  {
    if outputs == [] then [] else [Repaired(outputs[0])] + RepairedAll(outputs[1..])
  }

  // Every frame is text without a CR.
  ghost predicate Intact(outputs: seq<SseAdapter.Output>) {
    NoneHasCR(outputs) && forall i | 0 <= i < |outputs| && outputs[i].Frame? :: WellFormed(outputs[i].frame)
  }

  // ---- decoding the adapter's lines ----

  lemma RepairLine(line: seq<byte>, rest: seq<byte>)
    ensures Repair(DATA_PREFIX + line + [LF] + rest) == DATA_PREFIX + Repair(line) + [LF] + Repair(rest)
  {
    hide Repair;
    RepairAsciiPrefix(DATA_PREFIX, line + [LF] + rest);
    RepairAtAscii(line, LF, rest);
    assert DATA_PREFIX + line + [LF] + rest == DATA_PREFIX + (line + [LF] + rest);
    assert DATA_PREFIX + Repair(line) + [LF] + Repair(rest) == DATA_PREFIX + (Repair(line) + [LF] + Repair(rest));
  }

  lemma {:induction false} SplitOne(line: seq<byte>)
    requires LF !in line
    ensures Split(line) == [line]
  {
    if line != [] {
      SplitOne(line[1..]);
      assert [line[0]] + line[1..] == line;
    }
  }

  lemma {:induction false} SplitFirst(line: seq<byte>, rest: seq<byte>)
    requires LF !in line
    ensures Split(line + [LF] + rest) == [line] + Split(rest)
  {
    var s := line + [LF] + rest;
    if line == [] {
      assert s[0] == LF && s[1..] == rest;
    } else {
      assert s[0] == line[0] && s[1..] == line[1..] + [LF] + rest;
      SplitFirst(line[1..], rest);
      assert [line[0]] + line[1..] == line;
    }
  }

  lemma DataLinesOfOne(line: seq<byte>)
    requires LF !in line
    ensures DataLines(Split(line)) == DATA_PREFIX + line + [LF]
  {
    SplitOne(line);
    assert [line][1..] == [] && DataLines([]) == [];
    hide Split;
    assert DATA_PREFIX + line + [LF] + [] == DATA_PREFIX + line + [LF];
  }

  lemma DataLinesOfFirst(line: seq<byte>, rest: seq<byte>)
    requires LF !in line
    ensures DataLines(Split(line + [LF] + rest)) == DATA_PREFIX + line + [LF] + DataLines(Split(rest))
  {
    SplitFirst(line, rest);
    hide Split;
    assert ([line] + Split(rest))[1..] == Split(rest);
  }

  // The data lines of a frame, decoded, are those of the decoded frame.
  lemma {:induction false} RepairDataLines(frame: seq<byte>, rest: seq<byte>)
    ensures Repair(DataLines(Split(frame)) + rest) == DataLines(Split(Repair(frame))) + Repair(rest)
    decreases |frame|
  {
    hide Repair, Split, DataLines;
    if LF !in frame {
      RepairKeepsAscii(frame, LF);
      DataLinesOfOne(frame);
      DataLinesOfOne(Repair(frame));
      RepairLine(frame, rest);
    } else {
      var i := FirstLF(frame);
      var line, more := frame[..i], frame[i + 1..];
      assert frame == line + [LF] + more;
      RepairKeepsAscii(line, LF);
      RepairAtAscii(line, LF, more);
      DataLinesOfFirst(line, more);
      DataLinesOfFirst(Repair(line), Repair(more));
      RepairLine(line, DataLines(Split(more)) + rest);
      RepairDataLines(more, rest);
      var head := DATA_PREFIX + line + [LF];
      var decoded := DATA_PREFIX + Repair(line) + [LF];
      assert (head + DataLines(Split(more))) + rest == head + (DataLines(Split(more)) + rest);
      assert (decoded + DataLines(Split(Repair(more)))) + Repair(rest) == decoded + (DataLines(Split(Repair(more))) + Repair(rest));
    }
  }

  lemma FirstLF(s: seq<byte>) returns (i: nat)
    requires LF in s
    ensures i < |s| && s[i] == LF && LF !in s[..i]
  {
    assert s[..|s|] == s;
    i := Find(s, LF);
  }

  lemma RepairOutput(output: SseAdapter.Output, rest: seq<byte>)
    ensures Repair(OutputBytes(output) + rest) == OutputBytes(Repaired(output)) + Repair(rest)
  {
    hide Repair, Split, DataLines;
    match output
    case Frame(frame) =>
      var lines := DataLines(Split(frame));
      RepairDataLines(frame, [LF] + rest);
      RepairAsciiPrefix([LF], rest);
      assert (lines + [LF]) + rest == lines + ([LF] + rest);
      var decoded := DataLines(Split(Repair(frame)));
      assert (decoded + [LF]) + Repair(rest) == decoded + ([LF] + Repair(rest));
    case Heartbeat => RepairAsciiPrefix(PING, rest);
  }

  lemma {:induction false} RepairOutputs(outputs: seq<SseAdapter.Output>)
    ensures Repair(OutputsBytes(outputs)) == OutputsBytes(RepairedAll(outputs))
  {
    hide OutputBytes;
    if outputs == [] {
      RepairNothing();
    } else {
      hide Repair;
      RepairOutput(outputs[0], OutputsBytes(outputs[1..]));
      RepairOutputs(outputs[1..]);
      assert RepairedAll(outputs)[1..] == RepairedAll(outputs[1..]);
    }
  }

  lemma {:induction false} ItoaIsAscii(n: int)
    ensures Ascii(Itoa(n))
    decreases if n < 0 then 1 else 0, if n < 0 then -n else n
  {
    if n < 0 {
      ItoaIsAscii(-n);
    } else if n >= 10 {
      ItoaIsAscii(n / 10);
    }
  }

  // Decoding a whole stream decodes its frames one by one.
  lemma DecodeStream(retryMs: int, outputs: seq<SseAdapter.Output>)
    ensures Decode(Stream(retryMs, outputs)) == Stream(retryMs, RepairedAll(outputs))
  {
    var s := Stream(retryMs, outputs);
    assert s[0] == 114 && s[..3][0] == 114;
    ItoaIsAscii(retryMs);
    hide Repair, Itoa;
    assert Ascii(RetryBytes(retryMs));
    RepairAsciiPrefix(RetryBytes(retryMs), OutputsBytes(outputs));
    RepairOutputs(outputs);
  }

  // ---- what the client dispatches ----

  lemma RepairedHaveNoCR(outputs: seq<SseAdapter.Output>)
    ensures NoneHasCR(RepairedAll(outputs)) <==> NoneHasCR(outputs)
  {
    forall i | 0 <= i < |outputs| && outputs[i].Frame?
      ensures CR in Repaired(outputs[i]).frame <==> CR in outputs[i].frame
    {
      RepairKeepsAscii(outputs[i].frame, CR);
    }
    hide Repair;
    if NoneHasCR(outputs) {
      assert forall i | 0 <= i < |outputs| && outputs[i].Frame? :: CR !in Repaired(outputs[i]).frame;
    } else {
      var i :| 0 <= i < |outputs| && outputs[i].Frame? && CR in outputs[i].frame;
      assert CR in RepairedAll(outputs)[i].frame;
    }
  }

  // Between two outputs, any run of events and heartbeats adds exactly the decoded frames.
  lemma FeedDecodedOutputs(p: Parser, outputs: seq<SseAdapter.Output>)
    requires Ready(p) && NoneHasCR(outputs)
    ensures FeedAll(p, Repair(OutputsBytes(outputs))) ==
      p.(events := p.events + Messages(Frames(RepairedAll(outputs)), p.lastEventId))
  {
    RepairOutputs(outputs);
    RepairedHaveNoCR(outputs);
    FeedOutputs(p, RepairedAll(outputs));
  }

  lemma IntactAreKept(outputs: seq<SseAdapter.Output>)
    requires NoneHasCR(outputs)
    ensures Intact(outputs) <==> RepairedAll(outputs) == outputs
  {
    hide Repair, WellFormed;
    forall i | 0 <= i < |outputs| && outputs[i].Frame?
      ensures WellFormed(outputs[i].frame) <==> Repaired(outputs[i]) == outputs[i]
    {
      RepairIsIdentityIff(outputs[i].frame);
    }
    if Intact(outputs) {
      forall i | 0 <= i < |outputs| ensures RepairedAll(outputs)[i] == outputs[i] {}
    } else {
      var i :| 0 <= i < |outputs| && outputs[i].Frame? && !WellFormed(outputs[i].frame);
      assert RepairedAll(outputs)[i] != outputs[i];
    }
  }

  // A client that reads the whole stream dispatches exactly the frames that were sent, in
  // order, exactly when each of them is UTF-8 text without a CR. Without CRs it dispatches the
  // decoded frames in any case, and its reconnection time is the configured one.
  lemma StreamRoundTripIff(retryMs: int, outputs: seq<SseAdapter.Output>)
    ensures Client(Stream(retryMs, outputs)).events == Messages(Frames(outputs), []) <==> Intact(outputs)
    ensures NoneHasCR(outputs) ==>
      && Client(Stream(retryMs, outputs)).events == Messages(Frames(RepairedAll(outputs)), [])
      && Client(Stream(retryMs, outputs)).reconnectionTime == if retryMs >= 0 then Some(retryMs) else None
  {
    hide FeedAll, Stream, Decode, Frames, Messages, Repair;
    DecodeStream(retryMs, outputs);
    RepairedHaveNoCR(outputs);
    if NoneHasCR(outputs) {
      BytesRoundTripIff(retryMs, RepairedAll(outputs));
      IntactAreKept(outputs);
      if RepairedAll(outputs) != outputs {
        MessagesDiffer(outputs);
      }
    } else {
      NoCREver(START, Decode(Stream(retryMs, outputs)));
      var i :| 0 <= i < |outputs| && outputs[i].Frame? && CR in outputs[i].frame;
      var k := FrameIndex(outputs, i);
      assert CR in Messages(Frames(outputs), [])[k].data;
    }
  }

  lemma {:induction false} RepairedFrames(outputs: seq<SseAdapter.Output>)
    ensures Frames(RepairedAll(outputs)) == Frames(outputs) ==> RepairedAll(outputs) == outputs
    ensures |Frames(RepairedAll(outputs))| == |Frames(outputs)|
  {
    if outputs != [] {
      var r := RepairedAll(outputs);
      assert r[0] == Repaired(outputs[0]) && r[1..] == RepairedAll(outputs[1..]);
      assert Frames(r) == (if r[0].Frame? then [r[0].frame] else []) + Frames(r[1..]);
      assert Frames(outputs) == (if outputs[0].Frame? then [outputs[0].frame] else []) + Frames(outputs[1..]);
      assert outputs[0].Frame? ==> r[0].Frame? && (r[0].frame == outputs[0].frame ==> r[0] == outputs[0]);
      assert !outputs[0].Frame? ==> r[0] == outputs[0];
      hide RepairedAll, Frames, Repaired;
      RepairedFrames(outputs[1..]);
      assert r == [r[0]] + r[1..] && outputs == [outputs[0]] + outputs[1..];
      if outputs[0].Frame? {
        assert Frames(r)[0] == r[0].frame && Frames(r)[1..] == Frames(r[1..]);
        assert Frames(outputs)[0] == outputs[0].frame && Frames(outputs)[1..] == Frames(outputs[1..]);
      } else {
        assert Frames(r) == Frames(r[1..]) && Frames(outputs) == Frames(outputs[1..]);
      }
    }
  }

  lemma MessagesDiffer(outputs: seq<SseAdapter.Output>)
    requires RepairedAll(outputs) != outputs
    ensures Messages(Frames(RepairedAll(outputs)), []) != Messages(Frames(outputs), [])
  {
    RepairedFrames(outputs);
    var a, b := Frames(RepairedAll(outputs)), Frames(outputs);
    hide Frames, RepairedAll;
    var k :| 0 <= k < |a| && a[k] != b[k];
    assert Messages(a, [])[k].data != Messages(b, [])[k].data;
  }

  // ---- a connection that breaks ----

  lemma {:induction false} NoLineEndNoEvents(p: Parser, s: seq<byte>)
    requires LF !in s && CR !in s
    ensures FeedAll(p, s).events == p.events
    decreases |s|
  {
    if s != [] {
      NoLineEndNoEvents(Feed(p, s[0]), s[1..]);
    }
  }

  // Wherever the connection breaks, also within a character, the client has dispatched a
  // prefix of what it would have dispatched of the whole, whatever the frames.
  lemma AnyCutDispatchesPrefix(retryMs: int, outputs: seq<SseAdapter.Output>, cut: nat)
    requires cut <= |Stream(retryMs, outputs)|
    ensures Client(Stream(retryMs, outputs)[..cut]).events <= Client(Stream(retryMs, outputs)).events
    ensures Intact(outputs) ==> Client(Stream(retryMs, outputs)[..cut]).events <= Messages(Frames(outputs), [])
  {
    assert Stream(retryMs, outputs)[0] == 114;
    StreamRoundTripIff(retryMs, outputs);
    hide *;
    CutGivesPrefix(Stream(retryMs, outputs), cut);
  }

  lemma CutGivesPrefix(s: seq<byte>, cut: nat)
    requires |s| >= 3 && cut <= |s| && s[0] == 114
    ensures Client(s[..cut]).events <= Client(s).events
  {
    assert |s[..cut]| >= 3 ==> s[..cut][..3][0] == 114;
    assert s[..3][0] == 114;
    hide Repair, FeedAll;
    var done := RepairOfPrefix(s, cut);
    var whole := Repair(s);
    assert whole == done + whole[|done|..];
    FeedAppend(START, done, whole[|done|..]);
    EventsGrow(FeedAll(START, done), whole[|done|..]);
    FeedAppend(START, done, REPLACEMENT);
    NoLineEndNoEvents(FeedAll(START, done), REPLACEMENT);
  }
}
