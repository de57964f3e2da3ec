// adapter/sse: what one connection writes, and what the parser of eventstream.dfy reads from it.
module SseAdapter {
  import opened Bytes
  import opened EventStreamParser

  const DATA_PREFIX: seq<byte> := DATA + [COLON, SPACE]               // "data: "
  const PING: seq<byte> := [COLON, SPACE, 112, 105, 110, 103, LF, LF] // ": ping\n\n"
  const RETRY_PREFIX: seq<byte> := RETRY + [COLON, SPACE]             // "retry: "

  // The writes of one connection after the retry line, in the order of serve's loop.
  datatype Output = Frame(frame: seq<byte>) | Heartbeat

  // strings.Split(frame, "\n")
  function Split(frame: seq<byte>): (lines: seq<seq<byte>>)
    ensures |lines| >= 1
  {
    if frame == [] then [[]]
    else
      var rest := Split(frame[1..]);
      if frame[0] == LF then [[]] + rest else [[frame[0]] + rest[0]] + rest[1..]
  }

  // The lines are the frame's: ended by LF they are the frame again, and none holds a LF.
  lemma {:induction false} SplitLines(frame: seq<byte>)
    ensures Ended(Split(frame)) == frame + [LF]
  {
    if frame != [] {
      SplitLines(frame[1..]);
      var rest := Split(frame[1..]);
      assert frame == [frame[0]] + frame[1..];
      if frame[0] == LF {
        assert Split(frame)[1..] == rest;
      } else {
        assert Split(frame)[1..] == rest[1..];
        assert Ended(Split(frame)) == [frame[0]] + Ended(rest);
      }
    }
  }

  lemma {:induction false} SplitLinesHaveNoLF(frame: seq<byte>)
    ensures forall i | 0 <= i < |Split(frame)| :: LF !in Split(frame)[i] && (CR !in frame ==> CR !in Split(frame)[i])
  {
    if frame != [] {
      SplitLinesHaveNoLF(frame[1..]);
    }
  }

  function Ended(lines: seq<seq<byte>>): seq<byte> {
    if lines == [] then [] else lines[0] + [LF] + Ended(lines[1..])
  }

  function DataLines(lines: seq<seq<byte>>): seq<byte> {
    if lines == [] then [] else DATA_PREFIX + lines[0] + [LF] + DataLines(lines[1..])
  }

  function OutputBytes(output: Output): seq<byte> {
    match output
    case Frame(frame) => DataLines(Split(frame)) + [LF]
    case Heartbeat => PING
  }

  function OutputsBytes(outputs: seq<Output>): seq<byte> {
    if outputs == [] then [] else OutputBytes(outputs[0]) + OutputsBytes(outputs[1..])
  }

  function Frames(outputs: seq<Output>): (frames: seq<seq<byte>>) {
    if outputs == [] then []
    else (if outputs[0].Frame? then [outputs[0].frame] else []) + Frames(outputs[1..])
  }

  // strconv.Itoa for the configured RetryMs
  function Itoa(n: int): (s: seq<byte>)
    ensures s != []
    decreases if n < 0 then 1 else 0, if n < 0 then -n else n
  {
    if n < 0 then [45] + Itoa(-n)
    else if n < 10 then [(48 + n) as byte]
    else Itoa(n / 10) + [(48 + n % 10) as byte]
  }

  lemma {:induction false} ItoaDecimal(n: nat)
    ensures AllDigits(Itoa(n)) && Decimal(Itoa(n)) == n
  {
    if n >= 10 {
      ItoaDecimal(n / 10);
      assert Itoa(n)[..|Itoa(n)| - 1] == Itoa(n / 10);
    } else {
      assert Itoa(n)[..0] == [];
    }
  }

  function RetryBytes(retryMs: int): seq<byte> {
    RETRY_PREFIX + Itoa(retryMs) + [LF, LF]
  }

  // Between two outputs.
  predicate Ready(p: Parser) {
    AtLineStart(p) && p.data == [] && p.eventType == []
  }

  lemma FeedDataLine(p: Parser, line: seq<byte>)
    requires AtLineStart(p) && LF !in line && CR !in line
    ensures FeedAll(p, DATA_PREFIX + line + [LF]) == p.(data := p.data + line + [LF])
  {
    FeedLine(p, DATA_PREFIX + line);
    NamedField(p, DATA, line);
    assert DATA_PREFIX + line == DATA + [COLON, SPACE] + line;
  }

  // "name: value" is read as that field, whatever the value looks like.
  lemma NamedField(p: Parser, name: seq<byte>, value: seq<byte>)
    requires name != [] && COLON !in name
    ensures Interpret(p, name + [COLON, SPACE] + value) == Field(p, name, value)
  {
    var line := name + [COLON, SPACE] + value;
    assert line[|name|] == COLON && line[..|name|] == name;
    FindIs(line, COLON, |name|);
    assert line[|name| + 1..] == [SPACE] + value;
  }

  lemma {:induction false} FeedDataLines(p: Parser, lines: seq<seq<byte>>)
    requires AtLineStart(p) && forall i | 0 <= i < |lines| :: LF !in lines[i] && CR !in lines[i]
    ensures FeedAll(p, DataLines(lines)) == p.(data := p.data + Ended(lines))
    decreases |lines|
  {
    if lines == [] {
      assert p.data + [] == p.data;
    } else {
      var first := DATA_PREFIX + lines[0] + [LF];
      FeedDataLine(p, lines[0]);
      FeedAppend(p, first, DataLines(lines[1..]));
      var q := p.(data := p.data + lines[0] + [LF]);
      FeedDataLines(q, lines[1..]);
      assert p.data + lines[0] + [LF] + Ended(lines[1..]) == p.data + Ended(lines);
    }
  }

  function Message(frame: seq<byte>, lastEventId: seq<byte>): Event {
    Event([], frame, lastEventId)
  }

  // One event frame dispatches one message, the frame itself; a heartbeat dispatches nothing.
  lemma FeedOutput(p: Parser, output: Output)
    requires Ready(p) && (output.Frame? ==> CR !in output.frame)
    ensures FeedAll(p, OutputBytes(output)) ==
      if output.Frame? then p.(events := p.events + [Message(output.frame, p.lastEventId)]) else p
  {
    match output
    case Frame(frame) =>
      hide FeedAll, Split, Find, Field;
      SplitLines(frame);
      SplitLinesHaveNoLF(frame);
      var lines := Split(frame);
      FeedDataLines(p, lines);
      FeedAppend(p, DataLines(lines), [LF]);
      var q := p.(data := frame + [LF]);
      assert [] + (frame + [LF]) == frame + [LF];
      FeedLine(q, []);
      assert [] + [LF] == [LF];
      assert (frame + [LF])[..|frame|] == frame;
    case Heartbeat =>
      var comment := [COLON, SPACE, 112, 105, 110, 103];
      assert PING == comment + [LF, LF];
      assert Interpret(p, comment) == p;
      hide FeedAll, Interpret;
      LineThenBlank(p, comment);
  }

  predicate NoneHasCR(outputs: seq<Output>) {
    forall i | 0 <= i < |outputs| :: outputs[i].Frame? ==> CR !in outputs[i].frame
  }

  function Messages(frames: seq<seq<byte>>, lastEventId: seq<byte>): (events: seq<Event>)
    ensures |events| == |frames| && forall i | 0 <= i < |frames| :: events[i] == Message(frames[i], lastEventId)
  {
    if frames == [] then [] else [Message(frames[0], lastEventId)] + Messages(frames[1..], lastEventId)
  }

  lemma {:induction false} FeedOutputs(p: Parser, outputs: seq<Output>)
    requires Ready(p) && NoneHasCR(outputs)
    ensures FeedAll(p, OutputsBytes(outputs)) ==
      p.(events := p.events + Messages(Frames(outputs), p.lastEventId))
    decreases |outputs|
  {
    hide FeedAll, OutputBytes, Frames, Messages;
    if outputs == [] {
      FeedNothing(p);
      NoMessages(p.lastEventId);
      assert p.events + [] == p.events;
    } else {
      FeedAppend(p, OutputBytes(outputs[0]), OutputsBytes(outputs[1..]));
      FeedOutput(p, outputs[0]);
      FeedOutputs(FeedAll(p, OutputBytes(outputs[0])), outputs[1..]);
      var first := if outputs[0].Frame? then [Message(outputs[0].frame, p.lastEventId)] else [];
      var rest := Messages(Frames(outputs[1..]), p.lastEventId);
      assert FeedAll(p, OutputBytes(outputs[0])) == p.(events := p.events + first);
      assert p.events + first + rest == p.events + (first + rest);
      MessagesCons(outputs, p.lastEventId);
    }
  }

  lemma NoMessages(lastEventId: seq<byte>)
    ensures Messages(Frames([]), lastEventId) == []
  {}

  lemma MessagesCons(outputs: seq<Output>, lastEventId: seq<byte>)
    requires outputs != []
    ensures Messages(Frames(outputs), lastEventId) ==
      (if outputs[0].Frame? then [Message(outputs[0].frame, lastEventId)] else []) +
      Messages(Frames(outputs[1..]), lastEventId)
  {
    if outputs[0].Frame? {
      assert Frames(outputs)[1..] == Frames(outputs[1..]);
    } else {
      assert Frames(outputs) == Frames(outputs[1..]);
    }
  }

  lemma FeedRetry(retryMs: int)
    ensures var p := FeedAll(START, RetryBytes(retryMs));
      p == START.(reconnectionTime := if retryMs >= 0 then Some(retryMs) else None)
  {
    hide Itoa, FeedAll, Interpret, Field;
    var line := RETRY + [COLON, SPACE] + Itoa(retryMs);
    assert RetryBytes(retryMs) == line + [LF, LF];
    ItoaBytes(retryMs);
    RetryField(retryMs);
    NamedField(START, RETRY, Itoa(retryMs));
    LineThenBlank(START, line);
  }

  lemma RetryField(retryMs: int)
    ensures Field(START, RETRY, Itoa(retryMs)) ==
      START.(reconnectionTime := if retryMs >= 0 then Some(retryMs) else None)
  {
    if retryMs >= 0 {
      ItoaDecimal(retryMs);
    } else {
      assert Itoa(retryMs)[0] == 45;
    }
  }

  lemma {:induction false} ItoaBytes(n: int)
    ensures LF !in Itoa(n) && CR !in Itoa(n)
    decreases if n < 0 then 1 else 0, if n < 0 then -n else n
  {
    if n < 0 {
      ItoaBytes(-n);
    } else if n >= 10 {
      ItoaBytes(n / 10);
    }
  }

  // Everything written to one client.
  function Stream(retryMs: int, outputs: seq<Output>): seq<byte> {
    RetryBytes(retryMs) + OutputsBytes(outputs)
  }

  // A parser that is fed the bytes as they are dispatches exactly the frames that were sent,
  // in order, exactly when none of them has a CR.
  lemma BytesRoundTripIff(retryMs: int, outputs: seq<Output>)
    ensures FeedAll(START, Stream(retryMs, outputs)).events == Messages(Frames(outputs), []) <==> NoneHasCR(outputs)
    ensures NoneHasCR(outputs) ==>
      FeedAll(START, Stream(retryMs, outputs)).reconnectionTime == if retryMs >= 0 then Some(retryMs) else None
  {
    var s := Stream(retryMs, outputs);
    if NoneHasCR(outputs) {
      FeedAppend(START, RetryBytes(retryMs), OutputsBytes(outputs));
      FeedRetry(retryMs);
      FeedOutputs(FeedAll(START, RetryBytes(retryMs)), outputs);
      assert [] + Messages(Frames(outputs), []) == Messages(Frames(outputs), []);
    } else {
      NoCREver(START, s);
      var i :| 0 <= i < |outputs| && outputs[i].Frame? && CR in outputs[i].frame;
      var k := FrameIndex(outputs, i);
      assert CR in Messages(Frames(outputs), [])[k].data;
    }
  }

  lemma {:induction false} FrameIndex(outputs: seq<Output>, i: nat) returns (k: nat)
    requires i < |outputs| && outputs[i].Frame?
    ensures k < |Frames(outputs)| && Frames(outputs)[k] == outputs[i].frame
  {
    if i == 0 {
      k := 0;
    } else {
      k := FrameIndex(outputs[1..], i - 1);
      if outputs[0].Frame? {
        k := k + 1;
      }
    }
  }

  class ResponseWriter {
    var written: seq<byte>

    constructor ()
      ensures written == []
    {
      written := [];
    }

    method WriteString(s: seq<byte>)
      modifies this
      ensures written == old(written) + s
    {
      written := written + s;
    }
  }

  method SplitFrameLines(frame: seq<byte>) returns (lines: seq<seq<byte>>)
    ensures lines == Split(frame)
  {
    var parts := Split(frame);
    lines := [];
    for i := 0 to |parts|
      invariant lines == parts[..i]
    {
      lines := lines + [parts[i]];
    }
  }

  lemma {:induction false} DataLinesAppend(lines: seq<seq<byte>>, line: seq<byte>)
    ensures DataLines(lines + [line]) == DataLines(lines) + (DATA_PREFIX + line + [LF])
  {
    if lines == [] {
      assert [] + [line] == [line];
    } else {
      assert (lines + [line])[1..] == lines[1..] + [line];
      DataLinesAppend(lines[1..], line);
    }
  }

  method WriteEventFrame(writer: ResponseWriter, frame: seq<byte>)
    modifies writer
    ensures writer.written == old(writer.written) + OutputBytes(Frame(frame))
  {
    var lines := SplitFrameLines(frame);
    hide Split;
    for i := 0 to |lines|
      invariant writer.written == old(writer.written) + DataLines(lines[..i])
    {
      assert lines[..i + 1] == lines[..i] + [lines[i]];
      DataLinesAppend(lines[..i], lines[i]);
      writer.WriteString(DATA_PREFIX);
      writer.WriteString(lines[i]);
      writer.WriteString([LF]);
    }
    assert lines[..|lines|] == lines;
    writer.WriteString([LF]);
  }

  method WriteHeartbeatFrame(writer: ResponseWriter)
    modifies writer
    ensures writer.written == old(writer.written) + OutputBytes(Heartbeat)
  {
    writer.WriteString(PING);
  }

  // The output of serve's loop: the select's choices, frame or heartbeat, in any order.
  method Serve(writer: ResponseWriter, retryMs: int, choices: seq<Output>)
    requires writer.written == []
    modifies writer
    ensures writer.written == Stream(retryMs, choices)
  {
    hide OutputBytes, Itoa;
    writer.WriteString(RETRY_PREFIX);
    writer.WriteString(Itoa(retryMs));
    writer.WriteString([LF, LF]);
    ghost var head := writer.written;
    for i := 0 to |choices|
      invariant writer.written == head + OutputsBytes(choices[..i])
    {
      assert choices[..i + 1] == choices[..i] + [choices[i]];
      OutputsAppend(choices[..i], choices[i]);
      match choices[i]
      case Frame(frame) => WriteEventFrame(writer, frame);
      case Heartbeat => WriteHeartbeatFrame(writer);
    }
    assert choices[..|choices|] == choices;
  }

  lemma {:induction false} OutputsAppend(outputs: seq<Output>, output: Output)
    ensures OutputsBytes(outputs + [output]) == OutputsBytes(outputs) + OutputBytes(output)
  {
    hide OutputBytes;
    if outputs == [] {
      assert [] + [output] == [output];
    } else {
      assert (outputs + [output])[1..] == outputs[1..] + [output];
      OutputsAppend(outputs[1..], output);
      Associative(OutputBytes(outputs[0]), OutputsBytes(outputs[1..]), OutputBytes(output));
    }
  }
}
