// adapter/tcp framing: a big-endian length, a big-endian channel length, channel, frame.
module TcpFrames {
  import opened Bytes

  const MAX_FRAME_SIZE: int := 65535
  const MAX_HANDSHAKE_FRAME_SIZE: int := 4096

  datatype Message = Message(channel: Channel, frame: Frame)

  function Size(m: Message): (n: int) ensures n >= 4 {
    4 + |m.channel| + |m.frame|
  }

  // Messages a reader with this limit accepts; 0 means no limit but the 32-bit length.
  predicate Fits(m: Message, max: int) {
    Size(m) <= if max > 0 then max % UINT32_RANGE else UINT32_RANGE - 1
  }

  // The wire form of a message.
  function Wire(m: Message): (wire: seq<byte>)
    requires Fits(m, 0)
    ensures |wire| == 4 + Size(m)
  {
    Put32(Size(m)) + Put32(|m.channel|) + m.channel + m.frame
  }

  // The conversion uint32(x).
  function Uint32(x: nat): (r: nat)
    ensures r < UINT32_RANGE && r <= x
    ensures r == x <==> x < UINT32_RANGE
  {
    x % UINT32_RANGE
  }

  // The encoders' buffer length, in Go's uint32 arithmetic.
  function BufferSize(m: Message): (n: int)
    ensures 0 <= n <= 4 + Size(m)
    ensures n == 4 + Size(m) <==> 4 + Size(m) < UINT32_RANGE
  {
    Uint32(4 + Uint32(Size(m)))
  }

  // What both copies of encodeTCPFrame compute: too short a buffer panics (None), and the
  // builtin copy drops what does not fit.
  function EncoderResult(m: Message): (r: Option<seq<byte>>) {
    if BufferSize(m) < 8 + |m.channel| then None
    else Some(Put32(Uint32(Size(m))) + Put32(Uint32(|m.channel|)) + m.channel
              + m.frame[..BufferSize(m) - 8 - |m.channel|])
  }

  // The encoder keeps every byte of channel and frame exactly when 8 + |channel| + |frame|
  // fits in 32 bits; then, and only then, it produces the wire form.
  lemma EncoderCorrectIff(m: Message)
    ensures (Fits(m, 0) && EncoderResult(m) == Some(Wire(m))) <==> 4 + Size(m) < UINT32_RANGE
    ensures EncoderResult(m).Some? && 4 + Size(m) >= UINT32_RANGE ==> |EncoderResult(m).value| < 4 + Size(m)
  {
    assert m.frame[..|m.frame|] == m.frame;
  }

  // The builtin copy into buffer[at:]: as many bytes as fit. The encoders fill their
  // buffer from front to back, so only the part filled so far is described.
  method Copy(buffer: array<byte>, at: nat, source: seq<byte>)
    requires at <= buffer.Length
    modifies buffer
    ensures var n := if |source| <= buffer.Length - at then |source| else buffer.Length - at;
      buffer[..at + n] == old(buffer[..at]) + source[..n]
  {
    var n := if |source| <= buffer.Length - at then |source| else buffer.Length - at;
    for i := 0 to n
      invariant buffer[..at] == old(buffer[..at])
      invariant buffer[at..at + i] == source[..i]
    {
      buffer[at + i] := source[i];
    }
    assert buffer[..at + n] == buffer[..at] + buffer[at..at + n];
  }

  // The writes into a buffer that is long enough for the lengths and the channel.
  method Fill(buffer: array<byte>, word0: seq<byte>, word1: seq<byte>, channel: Channel, frame: Frame)
    requires |word0| == |word1| == 4 && 8 + |channel| <= buffer.Length <= 8 + |channel| + |frame|
    modifies buffer
    ensures buffer[..] == word0 + word1 + channel + frame[..buffer.Length - 8 - |channel|]
  {
    Copy(buffer, 0, word0);
    Copy(buffer, 4, word1);
    assert word0[..4] == word0 && word1[..4] == word1;
    ghost var head := buffer[..8];
    assert head == word0 + word1;
    Copy(buffer, 8, channel);
    assert channel[..|channel|] == channel && buffer[..8 + |channel|] == head + channel;
    Copy(buffer, 8 + |channel|, frame);
    assert buffer[..buffer.Length] == buffer[..];
  }

  // encodeTCPFrame in go/stream.go. panicked reports a slice expression out of range:
  // output[:4], output[4:8] or output[8:8+len(channel)].
  method EncodeStreamFrame(channel: Channel, frame: Frame) returns (panicked: bool, output: array<byte>)
    ensures panicked <==> EncoderResult(Message(channel, frame)) == None
    ensures !panicked ==> Some(output[..]) == EncoderResult(Message(channel, frame))
  {
    var payloadLength := Uint32(4 + |channel| + |frame|);
    var size := Uint32(4 + payloadLength);
    assert payloadLength == Uint32(Size(Message(channel, frame))) && size == BufferSize(Message(channel, frame));
    output := new byte[size](_ => 0);
    if size < 4 || size < 8 || 8 + |channel| > size {
      return true, output;
    }
    Fill(output, Put32(payloadLength), Put32(Uint32(|channel|)), channel, frame);
    return false, output;
  }

  // encodeTCPFrame in go/adapter/tcp/tcp.go: buffer[8:] takes the channel without an upper
  // bound, so the slice that can be out of range is buffer[8+len(channel):].
  method EncodeAdapterFrame(channel: Channel, frame: Frame) returns (panicked: bool, buffer: array<byte>)
    ensures panicked <==> EncoderResult(Message(channel, frame)) == None
    ensures !panicked ==> Some(buffer[..]) == EncoderResult(Message(channel, frame))
  {
    var payloadLength := Uint32(4 + |channel| + |frame|);
    var size := Uint32(4 + payloadLength);
    assert payloadLength == Uint32(Size(Message(channel, frame))) && size == BufferSize(Message(channel, frame));
    buffer := new byte[size](_ => 0);
    if size < 8 {
      return true, buffer;
    }
    Copy(buffer, 8, channel);
    if 8 + |channel| > size {
      return true, buffer;
    }
    Fill(buffer, Put32(payloadLength), Put32(Uint32(|channel|)), channel, frame);
    return false, buffer;
  }

  datatype ReadError = Truncated | TooLarge | Invalid
  datatype ReadResult = Got(message: Message) | Failed(error: ReadError)

  // readTCPFrame on the bytes still to come: its result and the bytes it leaves unread.
  function ReadFrame(s: seq<byte>, max: int): (r: (ReadResult, seq<byte>))
    requires max >= 0
  {
    if |s| < 4 then (Failed(Truncated), [])
    else
      var length := Get32(s[..4]);
      if max > 0 && length > max % UINT32_RANGE then (Failed(TooLarge), s[4..])
      else if |s| - 4 < length then (Failed(Truncated), [])
      else ParsePayload(s[4..4 + length], s[4 + length..])
  }

  function ParsePayload(payload: seq<byte>, rest: seq<byte>): (r: (ReadResult, seq<byte>)) {
    if |payload| < 4 then (Failed(Invalid), rest)
    else
      var channelLength := Get32(payload[..4]);
      if channelLength > |payload| - 4 then (Failed(Invalid), rest)
      else (Got(Message(payload[4..4 + channelLength], payload[4 + channelLength..])), rest)
  }

  predicate AllFit(messages: seq<Message>) {
    forall i | 0 <= i < |messages| :: Fits(messages[i], MAX_FRAME_SIZE)
  }

  lemma ReadWire(m: Message, rest: seq<byte>, max: int)
    requires max >= 0 && Fits(m, max) && Fits(m, 0)
    ensures ReadFrame(Wire(m) + rest, max) == (Got(m), rest)
  {
    var s := Wire(m) + rest;
    assert s[..4] == Put32(Size(m));
    Get32Put32(Size(m));
    Get32Put32(|m.channel|);
    var payload := s[4..4 + Size(m)];
    assert payload == Put32(|m.channel|) + m.channel + m.frame;
    assert payload[..4] == Put32(|m.channel|);
    assert payload[4..4 + |m.channel|] == m.channel;
    assert payload[4 + |m.channel|..] == m.frame;
    assert s[4 + Size(m)..] == rest;
  }

  // The reader is exact: it returns m and leaves rest just for the byte strings that are
  // the wire form of m followed by rest, m within the limit.
  lemma ReadFrameIff(s: seq<byte>, max: int, m: Message, rest: seq<byte>)
    requires max >= 0
    ensures ReadFrame(s, max) == (Got(m), rest) <==> Fits(m, max) && Fits(m, 0) && s == Wire(m) + rest
  {
    if ReadFrame(s, max) == (Got(m), rest) {
      var length := Get32(s[..4]);
      var payload := s[4..4 + length];
      Put32Get32(s[..4]);
      Put32Get32(payload[..4]);
      assert payload == payload[..4] + m.channel + m.frame;
      assert s == s[..4] + payload + rest;
    } else if Fits(m, max) && Fits(m, 0) && s == Wire(m) + rest {
      ReadWire(m, rest, max);
    }
  }

  // What is read of a stream, or why it cannot be, stays so whatever follows: exactly the
  // truncated reads could still come out otherwise.
  lemma DecidedIff(s: seq<byte>, max: int)
    requires max >= 0
    ensures ReadFrame(s, max).0 != Failed(Truncated) <==>
      forall more :: ReadFrame(s + more, max).0 == ReadFrame(s, max).0
  {
    if ReadFrame(s, max).0 == Failed(Truncated) {
      var zeros := seq(UINT32_RANGE + 4, _ => 0 as byte);
      LongEnough(s + zeros, max);
    } else {
      forall more ensures ReadFrame(s + more, max).0 == ReadFrame(s, max).0 {
        ReadOn(s, max, more);
      }
    }
  }

  lemma LongEnough(s: seq<byte>, max: int)
    requires max >= 0 && |s| >= UINT32_RANGE + 4
    ensures ReadFrame(s, max).0 != Failed(Truncated)
  {}

  // Bytes after a read that is decided are left unread.
  lemma ReadOn(s: seq<byte>, max: int, more: seq<byte>)
    requires max >= 0 && ReadFrame(s, max).0 != Failed(Truncated)
    ensures ReadFrame(s + more, max) == (ReadFrame(s, max).0, ReadFrame(s, max).1 + more)
  {
    assert (s + more)[..4] == s[..4] && (s + more)[4..] == s[4..] + more;
    var length := Get32(s[..4]);
    if !(max > 0 && length > max % UINT32_RANGE) {
      assert (s + more)[4..4 + length] == s[4..4 + length];
      assert (s + more)[4 + length..] == s[4 + length..] + more;
    }
  }

  // A reader on the stream takes these bytes for exactly this message, whatever follows them.
  ghost predicate ReadsAs(wire: seq<byte>, m: Message) {
    forall rest :: ReadFrame(wire + rest, MAX_FRAME_SIZE) == (Got(m), rest)
  }

  lemma ReadsAsIff(wire: seq<byte>, m: Message)
    ensures ReadsAs(wire, m) <==> Fits(m, MAX_FRAME_SIZE) && wire == Wire(m)
  {
    if ReadsAs(wire, m) {
      assert ReadFrame(wire + [], MAX_FRAME_SIZE) == (Got(m), []);
      ReadFrameIff(wire + [], MAX_FRAME_SIZE, m, []);
      assert wire + [] == wire && Wire(m) + [] == Wire(m);
    }
    if Fits(m, MAX_FRAME_SIZE) && wire == Wire(m) {
      forall rest ensures ReadFrame(wire + rest, MAX_FRAME_SIZE) == (Got(m), rest) {
        ReadWire(m, rest, MAX_FRAME_SIZE);
      }
    }
  }

  // Repeated readTCPFrame until the first failure.
  datatype Reading = Reading(messages: seq<Message>, error: ReadError, rest: seq<byte>)

  lemma ReadFrameShrinks(s: seq<byte>, max: int)
    requires max >= 0 && ReadFrame(s, max).0.Got?
    ensures |ReadFrame(s, max).1| < |s|
  {}

  function ReadAll(s: seq<byte>): (r: Reading)
    decreases |s|
  {
    var (result, rest) := ReadFrame(s, MAX_FRAME_SIZE);
    match result
    case Failed(error) => Reading([], error, rest)
    case Got(message) =>
      ReadFrameShrinks(s, MAX_FRAME_SIZE);
      var more := ReadAll(rest);
      more.(messages := [message] + more.messages)
  }

  function WireAll(messages: seq<Message>): (s: seq<byte>)
    requires AllFit(messages)
  {
    if messages == [] then [] else
      assert Fits(messages[0], MAX_FRAME_SIZE);
      Wire(messages[0]) + WireAll(messages[1..])
  }

  lemma ReadAllCons(m: Message, after: seq<byte>)
    requires Fits(m, MAX_FRAME_SIZE)
    ensures var more := ReadAll(after);
      ReadAll(Wire(m) + after) == Reading([m] + more.messages, more.error, more.rest)
  {
    ReadWire(m, after, MAX_FRAME_SIZE);
  }

  lemma WireAllCons(messages: seq<Message>, n: nat)
    requires AllFit(messages) && n < |messages|
    ensures WireAll(messages[..n + 1]) == Wire(messages[0]) + WireAll(messages[1..][..n])
  {
    assert messages[..n + 1][1..] == messages[1..][..n];
  }

  // How many messages arrived whole when the stream was cut after this many bytes.
  function Whole(messages: seq<Message>, cut: nat): (n: nat)
    requires AllFit(messages)
    ensures n <= |messages|
  {
    if messages == [] || cut < 4 + Size(messages[0]) then 0
    else 1 + Whole(messages[1..], cut - 4 - Size(messages[0]))
  }

  // Whole is what its name says: that many wire forms fit before the cut, and no more.
  lemma {:induction false} WholeIsMaximal(messages: seq<Message>, cut: nat)
    requires AllFit(messages)
    ensures var n := Whole(messages, cut);
      |WireAll(messages[..n])| <= cut && (n < |messages| ==> cut < |WireAll(messages[..n + 1])|)
  {
    hide Wire;
    if messages != [] {
      WireAllCons(messages, 0);
      if cut >= 4 + Size(messages[0]) {
        var n := Whole(messages[1..], cut - 4 - Size(messages[0]));
        WholeIsMaximal(messages[1..], cut - 4 - Size(messages[0]));
        WireAllCons(messages, n);
        if n + 1 < |messages| {
          WireAllCons(messages, n + 1);
        }
      }
    }
  }

  // However much of the stream arrived before the connection failed, the reader delivers
  // exactly the messages that arrived whole, in order, and then reports a truncated read.
  lemma {:induction false} ReadAnyPrefix(messages: seq<Message>, cut: nat)
    requires AllFit(messages) && cut <= |WireAll(messages)|
    ensures ReadAll(WireAll(messages)[..cut]) == Reading(messages[..Whole(messages, cut)], Truncated, [])
  {
    if messages != [] {
      var m, after := messages[0], WireAll(messages[1..]);
      if cut < |Wire(m)| {
        CutFrame(m, cut, after);
      } else {
        hide ReadFrame, ReadAll, Wire;
        var left := cut - |Wire(m)|;
        ReadAnyPrefix(messages[1..], left);
        CutAfter(Wire(m), after, cut);
        ReadAllCons(m, after[..left]);
        var n := Whole(messages[1..], left);
        assert messages[..n + 1] == [m] + messages[1..][..n];
      }
    }
  }

  lemma CutFrame(m: Message, cut: nat, after: seq<byte>)
    requires Fits(m, MAX_FRAME_SIZE) && cut < |Wire(m)|
    ensures ReadFrame((Wire(m) + after)[..cut], MAX_FRAME_SIZE) == (Failed(Truncated), [])
  {
    var s := (Wire(m) + after)[..cut];
    if cut >= 4 {
      assert s[..4] == Put32(Size(m));
      Get32Put32(Size(m));
    }
  }

  // The whole stream decodes to the list that was sent, and every byte is consumed.
  lemma StreamRoundTrip(messages: seq<Message>)
    requires AllFit(messages)
    ensures ReadAll(WireAll(messages)) == Reading(messages, Truncated, [])
  {
    var s := WireAll(messages);
    assert s[..|s|] == s;
    ReadAnyPrefix(messages, |s|);
    WholeStream(messages);
    assert messages[..|messages|] == messages;
  }

  lemma {:induction false} WholeStream(messages: seq<Message>)
    requires AllFit(messages)
    ensures Whole(messages, |WireAll(messages)|) == |messages|
  {
    if messages != [] {
      WholeStream(messages[1..]);
    }
  }
}
