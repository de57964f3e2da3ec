// An event-stream parser written from section 9.2.6 "Interpreting an event stream" of the
// WHATWG HTML Living Standard.
module EventStreamParser {
  import opened Bytes

  const LF: byte := 10
  const CR: byte := 13
  const SPACE: byte := 32
  const COLON: byte := 58

  // Field names and prefixes as ASCII bytes.
  const DATA: seq<byte> := [100, 97, 116, 97]
  const EVENT: seq<byte> := [101, 118, 101, 110, 116]
  const ID: seq<byte> := [105, 100]
  const RETRY: seq<byte> := [114, 101, 116, 114, 121]

  // A dispatched message; eventType [] stands for the default type "message".
  datatype Event = Event(eventType: seq<byte>, data: Frame, lastEventId: seq<byte>)

  // The parser reads byte by byte, so it can be cut anywhere. line is the unfinished line;
  // sawCR: the last byte was a CR, so a LF belongs to the same line end.
  datatype Parser = Parser(
    line: seq<byte>,
    sawCR: bool,
    data: seq<byte>,
    eventType: seq<byte>,
    lastEventId: seq<byte>,
    reconnectionTime: Option<nat>,
    events: seq<Event>)

  const START: Parser := Parser([], false, [], [], [], None, [])

  function Feed(p: Parser, b: byte): Parser {
    if b == LF then (if p.sawCR then p.(sawCR := false) else EndOfLine(p))
    else if b == CR then EndOfLine(p.(sawCR := false)).(sawCR := true)
    else p.(line := p.line + [b], sawCR := false)
  }

  function FeedAll(p: Parser, s: seq<byte>): Parser
    decreases |s|
  {
    if s == [] then p else FeedAll(Feed(p, s[0]), s[1..])
  }

  function EndOfLine(p: Parser): Parser {
    Interpret(p.(line := []), p.line)
  }

  function Interpret(p: Parser, line: seq<byte>): Parser {
    if line == [] then Dispatch(p)
    else if line[0] == COLON then p
    else
      var i := Find(line, COLON);
      if i < |line| then Field(p, line[..i], DropSpace(line[i + 1..])) else Field(p, line, [])
  }

  // The first position of b, or the length when there is none.
  function Find(s: seq<byte>, b: byte): (i: nat)
    ensures i <= |s| && (i < |s| ==> s[i] == b) && b !in s[..i]
  {
    if s == [] || s[0] == b then 0 else
      var i := Find(s[1..], b);
      assert s[..i + 1] == [s[0]] + s[1..][..i];
      i + 1
  }

  lemma {:induction false} FindIs(s: seq<byte>, b: byte, i: nat)
    requires i < |s| && s[i] == b && b !in s[..i]
    ensures Find(s, b) == i
  {
    if i > 0 {
      assert s[0] in s[..i] && s[1..][..i - 1] == s[..i][1..];
      FindIs(s[1..], b, i - 1);
    }
  }

  function DropSpace(value: seq<byte>): (r: seq<byte>)
    ensures |r| <= |value|
  {
    if value != [] && value[0] == SPACE then value[1..] else value
  }

  function Field(p: Parser, name: seq<byte>, value: seq<byte>): Parser {
    if name == EVENT then p.(eventType := value)
    else if name == DATA then p.(data := p.data + value + [LF])
    else if name == ID then (if 0 in value then p else p.(lastEventId := value))
    else if name == RETRY then
      (if value != [] && AllDigits(value) then p.(reconnectionTime := Some(Decimal(value))) else p)
    else p
  }

  predicate AllDigits(s: seq<byte>) {
    forall i | 0 <= i < |s| :: 48 <= s[i] <= 57
  }

  function Decimal(s: seq<byte>): nat
    requires AllDigits(s)
  {
    if s == [] then 0 else 10 * Decimal(s[..|s| - 1]) + (s[|s| - 1] as int - 48)
  }

  function Dispatch(p: Parser): Parser {
    if p.data == [] then p.(eventType := [])
    else
      var data := if p.data[|p.data| - 1] == LF then p.data[..|p.data| - 1] else p.data;
      p.(data := [], eventType := [], events := p.events + [Event(p.eventType, data, p.lastEventId)])
  }

  lemma {:induction false} FeedAppend(p: Parser, a: seq<byte>, b: seq<byte>)
    ensures FeedAll(p, a + b) == FeedAll(FeedAll(p, a), b)
    decreases |a|
  {
    if a == [] {
      assert a + b == b;
    } else {
      assert (a + b)[1..] == a[1..] + b;
      FeedAppend(Feed(p, a[0]), a[1..], b);
    }
  }

  lemma FeedNothing(p: Parser)
    ensures FeedAll(p, []) == p
  {}

  // At the start of a line, not after a CR.
  predicate AtLineStart(p: Parser) {
    p.line == [] && !p.sawCR
  }

  lemma {:induction false} FeedLineBytes(p: Parser, line: seq<byte>)
    requires !p.sawCR && LF !in line && CR !in line
    ensures FeedAll(p, line) == p.(line := p.line + line)
    decreases |line|
  {
    if line != [] {
      FeedLineBytes(Feed(p, line[0]), line[1..]);
      assert p.line + [line[0]] + line[1..] == p.line + line;
    } else {
      assert p.line + line == p.line;
    }
  }

  lemma InterpretKeepsLineStart(p: Parser, line: seq<byte>)
    requires AtLineStart(p)
    ensures AtLineStart(Interpret(p, line))
  {}

  lemma FeedLine(p: Parser, line: seq<byte>)
    requires AtLineStart(p) && LF !in line && CR !in line
    ensures FeedAll(p, line + [LF]) == Interpret(p, line) && AtLineStart(Interpret(p, line))
  {
    hide Interpret;
    FeedLineBytes(p, line);
    FeedAppend(p, line, [LF]);
    assert p.line + line == line;
    assert p.(line := line).(line := []) == p;
    assert Feed(p.(line := line), LF) == Interpret(p, line);
    InterpretKeepsLineStart(p, line);
  }

  lemma InterpretGrows(p: Parser, line: seq<byte>)
    ensures p.events <= Interpret(p, line).events
  {}

  lemma FeedGrows(p: Parser, b: byte)
    ensures p.events <= Feed(p, b).events
  {
    hide Interpret;
    InterpretGrows(p.(line := []), p.line);
    InterpretGrows(p.(line := [], sawCR := false), p.line);
  }

  lemma LineThenBlank(p: Parser, line: seq<byte>)
    requires AtLineStart(p) && LF !in line && CR !in line
    requires var q := Interpret(p, line); q.data == [] && q.eventType == []
    ensures FeedAll(p, line + [LF, LF]) == Interpret(p, line)
  {
    var q := Interpret(p, line);
    FeedLine(p, line);
    FeedLine(q, []);
    FeedAppend(p, line + [LF], [] + [LF]);
    assert line + [LF, LF] == (line + [LF]) + ([] + [LF]);
  }

  // Dispatched events are final: more input only adds to them.
  lemma {:induction false} EventsGrow(p: Parser, s: seq<byte>)
    ensures p.events <= FeedAll(p, s).events
    decreases |s|
  {
    if s != [] {
      hide Feed;
      FeedGrows(p, s[0]);
      EventsGrow(Feed(p, s[0]), s[1..]);
    }
  }

  // A CR always ends a line, so the parser never has one in its buffers.
  ghost predicate NoCR(p: Parser) {
    && CR !in p.line && CR !in p.data
    && forall i | 0 <= i < |p.events| :: CR !in p.events[i].data
  }

  lemma FieldKeepsNoCR(p: Parser, name: seq<byte>, value: seq<byte>)
    requires NoCR(p) && CR !in value
    ensures NoCR(Field(p, name, value))
  {
    hide AllDigits, Decimal;
    assert CR !in p.data + value + [LF];
  }

  lemma DispatchKeepsNoCR(p: Parser)
    requires NoCR(p)
    ensures NoCR(Dispatch(p))
  {}

  lemma InterpretKeepsNoCR(p: Parser, line: seq<byte>)
    requires NoCR(p) && CR !in line
    ensures NoCR(Interpret(p, line))
  {
    hide Field, Dispatch, NoCR;
    DispatchKeepsNoCR(p);
    if line != [] && line[0] != COLON {
      var i := Find(line, COLON);
      var value := if i < |line| then DropSpace(line[i + 1..]) else [];
      assert forall b :: b in value ==> b in line;
      FieldKeepsNoCR(p, line[..i], value);
      assert i == |line| ==> line[..i] == line;
    }
  }

  lemma {:induction false} NoCREver(p: Parser, s: seq<byte>)
    requires NoCR(p)
    ensures NoCR(FeedAll(p, s))
    decreases |s|
  {
    if s != [] {
      hide Interpret;
      InterpretKeepsNoCR(p.(line := []), p.line);
      InterpretKeepsNoCR(p.(line := [], sawCR := false), p.line);
      NoCREver(Feed(p, s[0]), s[1..]);
    }
  }
}
