// UTF-8 decoding as the Encoding Standard of the WHATWG has it, with the decoded text kept as
// its UTF-8 bytes: ill-formed input is replaced by U+FFFD.
module Utf8 {
  import opened Bytes

  const REPLACEMENT: seq<byte> := [0xEF, 0xBF, 0xBD]
  const MARK: seq<byte> := [0xEF, 0xBB, 0xBF]

  // The number of continuation bytes a lead byte asks for; None for a byte that is no lead.
  function Needed(lead: byte): (n: Option<nat>)
    ensures n.Some? ==> n.value <= 3
  {
    if lead < 0x80 then Some(0)
    else if 0xC2 <= lead <= 0xDF then Some(1)
    else if 0xE0 <= lead <= 0xEF then Some(2)
    else if 0xF0 <= lead <= 0xF4 then Some(3)
    else None
  }

  predicate Tail(b: byte) {
    0x80 <= b <= 0xBF
  }

  // The decoder's lower and upper boundary for the byte after the lead.
  predicate Second(lead: byte, b: byte) {
    (if lead == 0xE0 then 0xA0 else if lead == 0xF0 then 0x90 else 0x80) <= b <=
    (if lead == 0xED then 0x9F else if lead == 0xF4 then 0x8F else 0xBF)
  }

  // How many of the n bytes that continue a lead s begins with.
  function Continued(lead: byte, n: nat, s: seq<byte>): (k: nat)
    requires n <= 3
    ensures k <= n && k <= |s|
  {
    if n == 0 || s == [] || !Second(lead, s[0]) then 0
    else if n == 1 || |s| < 2 || !Tail(s[1]) then 1
    else if n == 2 || |s| < 3 || !Tail(s[2]) then 2
    else 3
  }

  // The decoder: a character, or one replacement for the longest beginning of a character.
  function Repair(s: seq<byte>): seq<byte>
    decreases |s|
  {
    if s == [] then []
    else
      match Needed(s[0])
      case None => REPLACEMENT + Repair(s[1..])
      case Some(n) =>
        var k := Continued(s[0], n, s[1..]);
        (if k == n then s[..n + 1] else REPLACEMENT) + Repair(s[k + 1..])
  }

  // The decode algorithm also drops one byte-order mark at the start.
  function Decode(s: seq<byte>): seq<byte> {
    Repair(if |s| >= 3 && s[..3] == MARK then s[3..] else s)
  }

  // How much one step of the decoder takes, and what it puts out.
  function Taken(s: seq<byte>): (n: nat)
    requires s != []
    ensures 0 < n <= |s|
  {
    match Needed(s[0])
    case None => 1
    case Some(n) => Continued(s[0], n, s[1..]) + 1
  }

  function Output(s: seq<byte>): seq<byte>
    requires s != []
  {
    if Needed(s[0]).Some? && Taken(s) == Needed(s[0]).value + 1 then s[..Taken(s)] else REPLACEMENT
  }

  lemma RepairStep(s: seq<byte>)
    requires s != []
    ensures Repair(s) == Output(s) + Repair(s[Taken(s)..])
  {}

  // ---- well-formed text ----

  // The well-formed byte sequences of one character, row by row of Unicode's table 3-7.
  predicate IsCharacter(c: seq<byte>) {
    || (|c| == 1 && c[0] < 0x80)
    || (|c| == 2 && 0xC2 <= c[0] <= 0xDF && Tail(c[1]))
    || (|c| == 3 && Tail(c[2]) &&
        ((c[0] == 0xE0 && 0xA0 <= c[1] <= 0xBF) || (0xE1 <= c[0] <= 0xEC && Tail(c[1])) ||
         (c[0] == 0xED && 0x80 <= c[1] <= 0x9F) || (0xEE <= c[0] <= 0xEF && Tail(c[1]))))
    || (|c| == 4 && Tail(c[2]) && Tail(c[3]) &&
        ((c[0] == 0xF0 && 0x90 <= c[1] <= 0xBF) || (0xF1 <= c[0] <= 0xF3 && Tail(c[1])) ||
         (c[0] == 0xF4 && 0x80 <= c[1] <= 0x8F)))
  }

  ghost predicate WellFormed(s: seq<byte>)
    decreases |s|
  {
    s == [] || exists n: nat :: 0 < n <= |s| && IsCharacter(s[..n]) && WellFormed(s[n..])
  }

  // The character that s begins with, if it does, is the one the decoder takes.
  lemma FirstCharacter(s: seq<byte>, n: nat)
    requires 0 < n <= |s|
    ensures IsCharacter(s[..n]) <==> n == Taken(s) && Needed(s[0]) == Some(n - 1)
  {
    var c := s[..n];
    assert n >= 2 ==> s[1..][0] == c[1];
    assert n >= 3 ==> s[1..][1] == c[2];
    assert n >= 4 ==> s[1..][2] == c[3];
  }

  // Decoding changes nothing exactly in well-formed text.
  lemma {:induction false} RepairIsIdentityIff(s: seq<byte>)
    ensures Repair(s) == s <==> WellFormed(s)
    decreases |s|
  {
    if s == [] {
      RepairNothing();
    } else {
      hide IsCharacter, Needed, Taken, Repair;
      var n := Taken(s);
      RepairStep(s);
      forall i: nat | 0 < i <= |s| ensures IsCharacter(s[..i]) <==> i == n && Needed(s[0]) == Some(n - 1) {
        FirstCharacter(s, i);
      }
      if Needed(s[0]) == Some(n - 1) {
        RepairIsIdentityIff(s[n..]);
        assert s == s[..n] + s[n..];
      } else {
        NotReplaced(s);
      }
    }
  }

  // An ill-formed beginning is not U+FFFD itself.
  lemma NotReplaced(s: seq<byte>)
    requires s != [] && Needed(s[0]) != Some(Taken(s) - 1)
    ensures REPLACEMENT + Repair(s[Taken(s)..]) != s
  {
    var t := REPLACEMENT + Repair(s[Taken(s)..]);
    hide Repair;
    assert t[0] == 0xEF && t[1] == 0xBF && t[2] == 0xBD;
    assert |s| >= 3 ==> s[1..][0] == s[1] && s[1..][1] == s[2];
  }

  // ---- decoding in pieces ----

  // Continuation bytes stop at an ASCII byte as they stop at the end.
  lemma ContinuedStops(lead: byte, n: nat, a: seq<byte>, c: byte, b: seq<byte>)
    requires n <= 3 && c < 0x80
    ensures Continued(lead, n, a + [c] + b) == Continued(lead, n, a)
  {
    var s := a + [c] + b;
    assert forall i | 0 <= i < |a| :: s[i] == a[i];
    assert s[|a|] == c;
  }

  lemma TakenBeforeAscii(a: seq<byte>, c: byte, b: seq<byte>)
    requires c < 0x80 && a != []
    ensures var s := a + [c] + b;
      Taken(s) == Taken(a) && Output(s) == Output(a) && s[Taken(s)..] == a[Taken(a)..] + [c] + b
  {
    var s := a + [c] + b;
    assert s[0] == a[0] && s[1..] == a[1..] + [c] + b;
    if Needed(a[0]).Some? {
      ContinuedStops(a[0], Needed(a[0]).value, a[1..], c, b);
    }
    hide Continued, Needed;
    assert s[..Taken(a)] == a[..Taken(a)];
  }

  // An ASCII byte separates what comes before it from what comes after.
  lemma {:induction false} RepairAtAscii(a: seq<byte>, c: byte, b: seq<byte>)
    requires c < 0x80
    ensures Repair(a + [c] + b) == Repair(a) + [c] + Repair(b)
    decreases |a|
  {
    var s := a + [c] + b;
    if a == [] {
      assert s == [c] + b && s[1..] == b && s[..1] == [c];
    } else {
      hide Repair, Taken, Output;
      TakenBeforeAscii(a, c, b);
      RepairStep(a);
      RepairStep(s);
      RepairAtAscii(a[Taken(a)..], c, b);
      var rest := Repair(a[Taken(a)..]);
      assert Output(a) + (rest + [c] + Repair(b)) == (Output(a) + rest) + [c] + Repair(b);
    }
  }

  lemma {:induction false} RepairMakesNoAscii(s: seq<byte>, c: byte)
    requires c < 0x80 && c !in s
    ensures c !in Repair(s)
    decreases |s|
  {
    if s != [] {
      hide Needed, Continued;
      match Needed(s[0])
      case None => RepairMakesNoAscii(s[1..], c);
      case Some(n) => RepairMakesNoAscii(s[Continued(s[0], n, s[1..]) + 1..], c);
    }
  }

  // ASCII bytes are kept, and none is made up.
  lemma RepairKeepsAscii(s: seq<byte>, c: byte)
    requires c < 0x80
    ensures c in Repair(s) <==> c in s
  {
    hide Repair;
    if c in s {
      var i :| 0 <= i < |s| && s[i] == c;
      RepairAtAscii(s[..i], c, s[i + 1..]);
      assert s == s[..i] + [c] + s[i + 1..];
    } else {
      RepairMakesNoAscii(s, c);
    }
  }

  lemma RepairNothing()
    ensures Repair([]) == []
  {}

  predicate Ascii(s: seq<byte>) {
    forall i | 0 <= i < |s| :: s[i] < 0x80
  }

  lemma {:induction false} RepairAsciiPrefix(p: seq<byte>, s: seq<byte>)
    requires Ascii(p)
    ensures Repair(p + s) == p + Repair(s)
    decreases |p|
  {
    hide Repair;
    if p == [] {
      assert p + s == s && p + Repair(s) == Repair(s);
    } else {
      RepairAsciiPrefix(p[1..], s);
      RepairNothing();
      RepairAtAscii([], p[0], p[1..] + s);
      assert p + s == [] + [p[0]] + (p[1..] + s);
      assert p + Repair(s) == [] + [p[0]] + (p[1..] + Repair(s));
    }
  }

  // ---- a stream cut short ----

  // What is decoded of the beginning of a stream is the beginning of what is decoded of the
  // whole, but for a replacement at the end if a character was cut.
  ghost predicate Begins(done: seq<byte>, cut: seq<byte>, whole: seq<byte>) {
    done <= whole && (cut == done || cut == done + REPLACEMENT)
  }

  lemma BeginsAfter(first: seq<byte>, done: seq<byte>, cut: seq<byte>, whole: seq<byte>)
    requires Begins(done, cut, whole)
    ensures Begins(first + done, first + cut, first + whole)
  {
    assert first + (done + REPLACEMENT) == (first + done) + REPLACEMENT;
  }

  lemma {:induction false} RepairOfPrefix(s: seq<byte>, cut: nat) returns (done: seq<byte>)
    requires cut <= |s|
    ensures Begins(done, Repair(s[..cut]), Repair(s))
    decreases |s|
  {
    if cut == 0 {
      RepairNothing();
      done := [];
    } else {
      var t := s[..cut];
      var n := Needed(s[0]);
      hide Needed, Continued, Begins;
      assert t[0] == s[0] && t[1..] == s[1..][..cut - 1];
      if n == None {
        var more := RepairOfPrefix(s[1..], cut - 1);
        BeginsAfter(REPLACEMENT, more, Repair(t[1..]), Repair(s[1..]));
        done := REPLACEMENT + more;
      } else {
        done := RepairOfLead(s, cut, n.value);
      }
    }
  }

  lemma {:induction false} RepairOfLead(s: seq<byte>, cut: nat, n: nat) returns (done: seq<byte>)
    requires 0 < cut <= |s| && Needed(s[0]) == Some(n)
    ensures Begins(done, Repair(s[..cut]), Repair(s))
    decreases |s|, 0
  {
    var t, k := s[..cut], Continued(s[0], n, s[1..]);
    CutContinued(s[0], n, s[1..], cut - 1);
    assert t[0] == s[0] && t[1..] == s[1..][..cut - 1];
    if k + 1 <= cut {
      hide Needed, Continued, Begins;
      var more := RepairOfPrefix(s[k + 1..], cut - k - 1);
      assert t[k + 1..] == s[k + 1..][..cut - k - 1];
      var first := if k == n then s[..n + 1] else REPLACEMENT;
      assert k == n ==> t[..n + 1] == s[..n + 1];
      BeginsAfter(first, more, Repair(t[k + 1..]), Repair(s[k + 1..]));
      done := first + more;
    } else {
      hide Needed, Continued;
      assert Continued(t[0], n, t[1..]) == cut - 1 < n;
      assert t[cut..] == [];
      RepairNothing();
      assert Repair(t) == REPLACEMENT + [];
      assert REPLACEMENT + [] == [] + REPLACEMENT;
      done := [];
    }
  }

  lemma CutContinued(lead: byte, n: nat, s: seq<byte>, cut: nat)
    requires n <= 3 && cut <= |s|
    ensures var full := Continued(lead, n, s); Continued(lead, n, s[..cut]) == if full <= cut then full else cut
  {}
}
