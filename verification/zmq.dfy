// adapter/zmq: messages on a ZeroMQ socket are "channel NUL frame".
module ZmqMessages {
  import opened Bytes

  const NUL: byte := 0

  function Encode(channel: Channel, frame: Frame): Frame {
    channel + [NUL] + frame
  }

  // The part before the first NUL and the part after it; None when there is no NUL.
  function Decode(payload: Frame): (r: Option<(Channel, Frame)>) {
    if payload == [] then None
    else if payload[0] == NUL then Some(([], payload[1..]))
    else match Decode(payload[1..])
      case None => None
      case Some(m) => Some(([payload[0]] + m.0, m.1))
  }

  // Decoding is exact: it yields (c, f) for the messages that encode (c, f) with a
  // NUL-free channel, and for nothing else.
  lemma {:induction false} DecodeIff(payload: Frame, channel: Channel, frame: Frame)
    ensures Decode(payload) == Some((channel, frame)) <==> NUL !in channel && payload == Encode(channel, frame)
  {
    if payload != [] {
      if payload[0] == NUL {
        assert Encode(channel, frame)[0] == if channel == [] then NUL else channel[0];
        assert Encode([], frame)[1..] == frame;
        assert payload == [NUL] + payload[1..];
      } else {
        if channel != [] {
          DecodeIff(payload[1..], channel[1..], frame);
          assert channel == [channel[0]] + channel[1..];
          assert Encode(channel, frame) == [channel[0]] + Encode(channel[1..], frame);
          assert payload == [payload[0]] + payload[1..];
        } else {
          assert Encode(channel, frame)[0] == NUL;
        }
      }
    }
  }

  lemma DecodeFailsIff(payload: Frame)
    ensures Decode(payload) == None <==> NUL !in payload
  {
    if payload != [] {
      assert payload == [payload[0]] + payload[1..];
      DecodeFailsIff(payload[1..]);
    }
  }

  // A message survives the socket exactly when its channel has no NUL; a channel that
  // has one is cut at its first NUL and the rest is moved into the frame.
  lemma RoundTripIff(channel: Channel, frame: Frame)
    ensures Decode(Encode(channel, frame)) == Some((channel, frame)) <==> NUL !in channel
    ensures forall i | 0 <= i < |channel| && channel[i] == NUL && NUL !in channel[..i] ::
      Decode(Encode(channel, frame)) == Some((channel[..i], channel[i + 1..] + [NUL] + frame))
  {
    DecodeIff(Encode(channel, frame), channel, frame);
    forall i | 0 <= i < |channel| && channel[i] == NUL && NUL !in channel[..i]
      ensures Decode(Encode(channel, frame)) == Some((channel[..i], channel[i + 1..] + [NUL] + frame))
    {
      assert channel == channel[..i] + [NUL] + channel[i + 1..];
      assert Encode(channel, frame) == Encode(channel[..i], channel[i + 1..] + [NUL] + frame);
      DecodeIff(Encode(channel, frame), channel[..i], channel[i + 1..] + [NUL] + frame);
    }
  }

  method EncodeMessage(channel: Channel, frame: Frame) returns (output: Frame)
    ensures output == Encode(channel, frame)
  {
    output := [];
    output := output + channel;
    output := output + [NUL];
    output := output + frame;
  }

  method DecodeMessage(payload: Frame) returns (r: Option<(Channel, Frame)>)
    ensures r == Decode(payload)
    ensures r.Some? ==> Encode(r.value.0, r.value.1) == payload
  {
    for index := 0 to |payload|
      invariant NUL !in payload[..index]
    {
      if payload[index] != NUL {
        continue;
      }
      assert payload == Encode(payload[..index], payload[index + 1..]);
      DecodeIff(payload, payload[..index], payload[index + 1..]);
      return Some((payload[..index], payload[index + 1..]));
    }
    assert payload[..|payload|] == payload;
    DecodeFailsIff(payload);
    return None;
  }
}
