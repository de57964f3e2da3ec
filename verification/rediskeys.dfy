// The names a Bridge uses in Redis (go/adapter/redis/redis.go), against Redis glob matching.
module RedisKeys {
  import opened Bytes

  const STAR: byte := 42
  const QUERY: byte := 63
  const BRACKET: byte := 91
  const BACKSLASH: byte := 92
  const COLON: byte := 58
  const BROADCAST: Channel := [98, 114, 111, 97, 100, 99, 97, 115, 116]
  const CHANNEL: Channel := [99, 104, 97, 110, 110, 101, 108]

  function BroadcastKey(prefix: Channel): Channel {
    prefix + ([COLON] + BROADCAST)
  }

  function KeyPrefix(prefix: Channel): Channel {
    prefix + ([COLON] + CHANNEL + [COLON])
  }

  function ChannelKey(prefix: Channel, c: Channel): Channel {
    KeyPrefix(prefix) + c
  }

  function ChannelPattern(prefix: Channel): Channel {
    KeyPrefix(prefix) + [STAR]
  }

  predicate StartsWith(s: Channel, prefix: Channel) {
    |prefix| <= |s| && s[..|prefix|] == prefix
  }

  // The empty channel stands for a broadcast.
  function ChannelFromRedis(prefix: Channel, key: Channel): Channel {
    if key == BroadcastKey(prefix) then []
    else if StartsWith(key, KeyPrefix(prefix)) then key[|KeyPrefix(prefix)|..]
    else key
  }

  // ---- patterns ----

  predicate GlobFree(s: Channel) {
    QUERY !in s && STAR !in s && Plain(s)
  }

  // Without character classes and escapes, which Matches does not interpret.
  predicate Plain(s: Channel) {
    BRACKET !in s && BACKSLASH !in s
  }

  // Glob matching, for plain patterns.
  predicate Matches(pattern: Channel, key: Channel)
    decreases |pattern| + |key|
  {
    if pattern == [] then key == []
    else if pattern[0] == STAR then Matches(pattern[1..], key) || (key != [] && Matches(pattern, key[1..]))
    else key != [] && (pattern[0] == QUERY || pattern[0] == key[0]) && Matches(pattern[1..], key[1..])
  }

  // A pattern without "*" against a name, byte by byte.
  predicate Fits(p: Channel, key: Channel) {
    |p| <= |key| && forall i | 0 <= i < |p| :: p[i] == QUERY || p[i] == key[i]
  }

  lemma {:induction false} StarlessMatches(p: Channel, rest: Channel, key: Channel)
    requires STAR !in p
    ensures Matches(p + rest, key) <==> Fits(p, key) && Matches(rest, key[|p|..])
    decreases |p|
  {
    if p == [] {
      assert p + rest == rest && key[0..] == key;
    } else {
      assert (p + rest)[1..] == p[1..] + rest && (p + rest)[0] == p[0] != STAR;
      if key != [] {
        StarlessMatches(p[1..], rest, key[1..]);
        assert Fits(p, key) <==> (p[0] == QUERY || p[0] == key[0]) && Fits(p[1..], key[1..]) by {
          if (p[0] == QUERY || p[0] == key[0]) && Fits(p[1..], key[1..]) {
            forall i | 0 <= i < |p| ensures p[i] == QUERY || p[i] == key[i] {
              assert i > 0 ==> p[i] == p[1..][i - 1] && key[i] == key[1..][i - 1];
            }
          }
        }
        if |p| <= |key| {
          assert key[1..][|p| - 1..] == key[|p|..];
        }
      }
    }
  }

  lemma LiteralMatches(p: Channel, rest: Channel, key: Channel)
    requires GlobFree(p)
    ensures Matches(p + rest, key) <==> StartsWith(key, p) && Matches(rest, key[|p|..])
  {
    StarlessMatches(p, rest, key);
    LiteralFits(p, key);
  }

  lemma {:induction false} StarMatches(key: Channel)
    ensures Matches([STAR], key)
  {
    if key == [] {
      assert Matches([STAR][1..], key);
    } else {
      StarMatches(key[1..]);
    }
  }

  // How many copies of a message under this key a client gets that subscribed to both patterns.
  function Copies(prefix: Channel, key: Channel): nat {
    (if Matches(BroadcastKey(prefix), key) then 1 else 0) + (if Matches(ChannelPattern(prefix), key) then 1 else 0)
  }

  lemma PatternsAreExact(prefix: Channel, key: Channel)
    requires GlobFree(prefix)
    ensures Matches(BroadcastKey(prefix), key) <==> key == BroadcastKey(prefix)
    ensures Matches(ChannelPattern(prefix), key) <==> StartsWith(key, KeyPrefix(prefix))
  {
    var p := BroadcastKey(prefix);
    assert GlobFree(p) && GlobFree(KeyPrefix(prefix));
    LiteralMatches(p, [], key);
    assert p + [] == p;
    LiteralMatches(KeyPrefix(prefix), [STAR], key);
    if StartsWith(key, KeyPrefix(prefix)) {
      StarMatches(key[|KeyPrefix(prefix)|..]);
    }
    if StartsWith(key, p) && Matches([], key[|p|..]) {
      assert key == key[..|p|] + key[|p|..];
    }
  }

  lemma KeysDiffer(prefix: Channel)
    ensures !StartsWith(BroadcastKey(prefix), KeyPrefix(prefix))
  {
    assert BroadcastKey(prefix)[..|KeyPrefix(prefix)|][|prefix| + 1] == 98;
    assert KeyPrefix(prefix)[|prefix| + 1] == 99;
  }

  // A key names the channel it was made for.
  lemma NamesRoundTrip(prefix: Channel, c: Channel)
    ensures ChannelFromRedis(prefix, BroadcastKey(prefix)) == []
    ensures ChannelFromRedis(prefix, ChannelKey(prefix, c)) == c
  {
    KeysDiffer(prefix);
    assert StartsWith(ChannelKey(prefix, c), KeyPrefix(prefix));
  }

  // ---- how often a key of the bridge is received ----

  // Each byte of a plain pattern also matches itself.
  lemma {:induction false} MatchesItself(p: Channel, rest: Channel, tail: Channel)
    requires Matches(rest, tail)
    ensures Matches(p + rest, p + tail)
    decreases |p|
  {
    if p == [] {
      assert p + rest == rest && p + tail == tail;
    } else {
      MatchesItself(p[1..], rest, tail);
      assert (p + rest)[1..] == p[1..] + rest && (p + tail)[1..] == p[1..] + tail;
      if p[0] == STAR {
        assert Matches(p + rest, (p + tail)[1..]);
      }
    }
  }

  lemma OwnPatternMatches(prefix: Channel, c: Channel)
    ensures Matches(BroadcastKey(prefix), BroadcastKey(prefix))
    ensures Matches(ChannelPattern(prefix), ChannelKey(prefix, c))
  {
    MatchesItself(BroadcastKey(prefix), [], []);
    assert BroadcastKey(prefix) + [] == BroadcastKey(prefix);
    StarMatches(c);
    MatchesItself(KeyPrefix(prefix), [STAR], c);
  }

  // Without "*" no name matches both patterns: they differ after the first colon.
  lemma StarlessPatternsDiffer(prefix: Channel, key: Channel)
    requires STAR !in prefix
    ensures !(Matches(BroadcastKey(prefix), key) && Matches(ChannelPattern(prefix), key))
  {
    StarlessMatches(BroadcastKey(prefix), [], key);
    assert BroadcastKey(prefix) + [] == BroadcastKey(prefix);
    StarlessMatches(KeyPrefix(prefix), [STAR], key);
    assert BroadcastKey(prefix)[|prefix| + 1] == 98 && KeyPrefix(prefix)[|prefix| + 1] == 99;
  }

  predicate ReceivesOnce(prefix: Channel) {
    Plain(prefix) && STAR !in prefix
  }

  // A bridge receives each of its own keys once, whatever the channel.
  lemma KeysAreExact(prefix: Channel, c: Channel)
    requires ReceivesOnce(prefix)
    ensures Copies(prefix, BroadcastKey(prefix)) == 1 && Copies(prefix, ChannelKey(prefix, c)) == 1
  {
    OwnPatternMatches(prefix, c);
    StarlessPatternsDiffer(prefix, BroadcastKey(prefix));
    StarlessPatternsDiffer(prefix, ChannelKey(prefix, c));
  }

  lemma SplitAtStar(x: Channel, y: Channel, c: Channel)
    ensures var prefix := x + ([STAR] + y);
      BroadcastKey(prefix) == x + ([STAR] + (y + ([COLON] + BROADCAST))) &&
      ChannelKey(prefix, c) == x + (([STAR] + y + ([COLON] + CHANNEL + [COLON])) + c)
  {}

  // With a "*" in the prefix, before y, the channel y + ":broadcast" is received twice: the
  // "*" of the broadcast pattern also takes "*y:channel:".
  lemma StarPrefixDuplicates(x: Channel, y: Channel)
    ensures var prefix := x + ([STAR] + y); Copies(prefix, ChannelKey(prefix, y + ([COLON] + BROADCAST))) == 2
  {
    var prefix, tail := x + ([STAR] + y), y + ([COLON] + BROADCAST);
    var middle := [STAR] + y + ([COLON] + CHANNEL + [COLON]);
    NothingMatches([]);
    hide Matches, BroadcastKey, ChannelKey;
    OwnPatternMatches(prefix, tail);
    MatchesItself(tail, [], []);
    assert tail + [] == tail;
    assert (middle + tail)[|middle|..] == tail;
    StarThen(tail, middle + tail, |middle|);
    MatchesItself(x, [STAR] + tail, middle + tail);
    SplitAtStar(x, y, tail);
  }

  // So for plain prefixes each channel is received exactly once if and only if the prefix has
  // no "*"; "?" does no harm.
  lemma ReceivedOnceIff(prefix: Channel)
    requires Plain(prefix)
    ensures (forall c :: Copies(prefix, ChannelKey(prefix, c)) == 1) <==> ReceivesOnce(prefix)
  {
    if STAR in prefix {
      var i: nat :| i < |prefix| && prefix[i] == STAR;
      assert prefix == prefix[..i] + ([STAR] + prefix[i + 1..]);
      StarPrefixDuplicates(prefix[..i], prefix[i + 1..]);
    } else {
      forall c ensures Copies(prefix, ChannelKey(prefix, c)) == 1 {
        KeysAreExact(prefix, c);
      }
    }
  }

  lemma {:induction false} StarThen(rest: Channel, key: Channel, n: nat)
    requires n <= |key| && Matches(rest, key[n..])
    ensures Matches([STAR] + rest, key)
    decreases n
  {
    assert ([STAR] + rest)[1..] == rest;
    if n == 0 {
      assert key[0..] == key;
    } else {
      assert key[1..][n - 1..] == key[n..];
      StarThen(rest, key[1..], n - 1);
    }
  }

  // ---- two prefixes on one Redis ----

  // Bridges with prefix p receive some message of the bridges with prefix q.
  ghost predicate Hears(p: Channel, q: Channel) {
    Copies(p, BroadcastKey(q)) > 0 || exists c | c != [] :: Copies(p, ChannelKey(q, c)) > 0
  }

  // A pattern that is no shorter than the name, up to the length of the name.
  predicate FitsOver(pattern: Channel, name: Channel) {
    |name| <= |pattern| && Fits(pattern[..|name|], name)
  }

  // The prefixes fit, or one with ":channel:" (its last colon at most one past the end) fits
  // the beginning of the other. p is read as a pattern and q as it is.
  predicate Overlap(p: Channel, q: Channel) {
    || (|p| == |q| && Fits(p, q))
    || Fits(KeyPrefix(p), q + [COLON])
    || FitsOver(p + [COLON], KeyPrefix(q))
  }

  lemma PatternsFit(p: Channel, key: Channel)
    requires STAR !in p
    ensures Matches(BroadcastKey(p), key) <==> |key| == |BroadcastKey(p)| && Fits(BroadcastKey(p), key)
    ensures Matches(ChannelPattern(p), key) <==> Fits(KeyPrefix(p), key)
  {
    hide Matches, Fits;
    StarlessMatches(BroadcastKey(p), [], key);
    assert BroadcastKey(p) + [] == BroadcastKey(p);
    FitsIsShorter(BroadcastKey(p), key);
    FitsIsShorter(KeyPrefix(p), key);
    if |BroadcastKey(p)| <= |key| {
      NothingMatches(key[|BroadcastKey(p)|..]);
    }
    StarlessMatches(KeyPrefix(p), [STAR], key);
    if |KeyPrefix(p)| <= |key| {
      StarMatches(key[|KeyPrefix(p)|..]);
    }
  }

  lemma FitsIsShorter(p: Channel, key: Channel)
    ensures Fits(p, key) ==> |p| <= |key|
  {}

  lemma NothingMatches(key: Channel)
    ensures Matches([], key) <==> key == []
  {}

  lemma NoFit(p: Channel, key: Channel, i: nat)
    requires i < |p| && (|key| < |p| || (i < |key| && p[i] != QUERY && p[i] != key[i]))
    ensures !Fits(p, key)
  {}

  // The literal ends of the names, by position.
  lemma Literals(p: Channel, i: nat)
    requires |p| <= i < |p| + 9
    ensures KeyPrefix(p)[i] == ([COLON] + CHANNEL + [COLON])[i - |p|]
    ensures KeyPrefix(p)[i] != QUERY && (KeyPrefix(p)[i] == COLON <==> i == |p| || i == |p| + 8)
    ensures BroadcastKey(p)[i] == ([COLON] + BROADCAST)[i - |p|]
    ensures BroadcastKey(p)[i] != QUERY && (BroadcastKey(p)[i] == COLON <==> i == |p|)
  {}

  lemma ChannelPatternOnBroadcast(p: Channel, q: Channel)
    ensures Fits(KeyPrefix(p), BroadcastKey(q)) <==> Fits(KeyPrefix(p), q + [COLON])
  {
    var key, k := BroadcastKey(q), KeyPrefix(p);
    assert key[..|q| + 1] == q + [COLON];
    if |k| <= |q| + 1 {
      assert forall i | 0 <= i < |k| :: key[i] == (q + [COLON])[i];
    } else {
      // they differ, unless the name is too short
      var i := if |q| > |p| then |q| else |q| + 1;
      if |q| + 1 >= |p| {
        Literals(p, i);
        assert key[|q|] == COLON && key[|q| + 1] == 98;
        assert |q| == |p| ==> k[i] == 99;
      }
      NoFit(k, key, i);
    }
  }

  lemma BroadcastPatternOnChannel(p: Channel, q: Channel, c: Channel)
    requires c != [] && |ChannelKey(q, c)| == |BroadcastKey(p)|
    ensures Fits(BroadcastKey(p), ChannelKey(q, c)) ==> FitsOver(p + [COLON], KeyPrefix(q))
  {
    var key, b := ChannelKey(q, c), BroadcastKey(p);
    var n := |KeyPrefix(q)|;
    if n <= |p| + 1 {
      assert forall i | 0 <= i < n :: key[i] == KeyPrefix(q)[i] && b[i] == (p + [COLON])[..n][i];
    } else {
      var i := if |p| == |q| then |p| + 1 else |p|;
      Literals(q, i);
      Literals(p, i);
      assert |p| == |q| ==> b[i] == 98 && key[i] == 99;
      NoFit(b, key, i);
    }
  }

  lemma ChannelPatternOnChannel(p: Channel, q: Channel, c: Channel)
    ensures Fits(KeyPrefix(p), ChannelKey(q, c)) ==> Overlap(p, q)
  {
    var key, k := ChannelKey(q, c), KeyPrefix(p);
    if |p| == |q| {
      assert forall i | 0 <= i < |p| :: k[i] == p[i] && key[i] == q[i];
    } else if |p| < |q| {
      if |k| <= |q| + 1 {
        assert forall i | 0 <= i < |k| :: key[i] == (q + [COLON])[i];
      } else {
        Literals(p, |q|);
        assert key[|q|] == COLON;
        NoFit(k, key, |q|);
      }
    } else {
      var n := |KeyPrefix(q)|;
      if n <= |p| + 1 {
        assert forall i | 0 <= i < n :: key[i] == KeyPrefix(q)[i] && k[i] == (p + [COLON])[..n][i];
      } else {
        Literals(q, |p|);
        Literals(p, |p|);
        assert key[|p|] == KeyPrefix(q)[|p|];
        NoFit(k, key, |p|);
      }
    }
  }

  lemma HearsSome(p: Channel, q: Channel)
    requires STAR !in p && Overlap(p, q)
    ensures Hears(p, q)
  {
    PatternsFit(p, BroadcastKey(q));
    ChannelPatternOnBroadcast(p, q);
    if |p| == |q| && Fits(p, q) {
      assert forall i | 0 <= i < |BroadcastKey(p)| :: i >= |p| ==> BroadcastKey(p)[i] == BroadcastKey(q)[i];
      assert Fits(BroadcastKey(p), BroadcastKey(q));
    } else if !Fits(KeyPrefix(p), q + [COLON]) {
      var n := |KeyPrefix(q)|;
      var c := BroadcastKey(p)[n..];
      var key := ChannelKey(q, c);
      PatternsFit(p, key);
      forall i | 0 <= i < |key| ensures BroadcastKey(p)[i] == QUERY || BroadcastKey(p)[i] == key[i] {
        assert i < n ==> BroadcastKey(p)[i] == (p + [COLON])[..n][i] && key[i] == KeyPrefix(q)[i];
        assert i >= n ==> key[i] == c[i - n];
      }
      assert c != [] && Copies(p, key) > 0;
    }
  }

  // Bridges with prefix p, plain and without "*", receive something of those with prefix q
  // exactly when the prefixes overlap.
  lemma PrefixesInterfereIff(p: Channel, q: Channel)
    requires ReceivesOnce(p)
    ensures Hears(p, q) <==> Overlap(p, q)
  {
    if Overlap(p, q) {
      HearsSome(p, q);
    } else {
      PatternsFit(p, BroadcastKey(q));
      ChannelPatternOnBroadcast(p, q);
      SameLengthFits(p, q);
      forall c | c != [] ensures Copies(p, ChannelKey(q, c)) == 0 {
        PatternsFit(p, ChannelKey(q, c));
        ChannelPatternOnChannel(p, q, c);
        if |ChannelKey(q, c)| == |BroadcastKey(p)| {
          BroadcastPatternOnChannel(p, q, c);
        }
      }
    }
  }

  lemma SameLengthFits(p: Channel, q: Channel)
    ensures |BroadcastKey(p)| == |BroadcastKey(q)| && Fits(BroadcastKey(p), BroadcastKey(q)) ==> |p| == |q| && Fits(p, q)
  {
    assert forall i | 0 <= i < |p| :: BroadcastKey(p)[i] == p[i];
    assert forall i | 0 <= i < |q| :: BroadcastKey(q)[i] == q[i];
  }

  lemma LiteralFits(p: Channel, key: Channel)
    requires GlobFree(p)
    ensures Fits(p, key) <==> StartsWith(key, p)
  {
    if |p| <= |key| {
      if Fits(p, key) {
        forall i | 0 <= i < |p| ensures key[..|p|][i] == p[i] {
          assert p[i] in p;
        }
      } else if key[..|p|] == p {
        forall i | 0 <= i < |p| ensures p[i] == key[i] {
          assert key[..|p|][i] == key[i];
        }
      }
    }
  }

  // So of two glob-free prefixes, exactly when they are equal or one extends the other by
  // ":channel": broadcasts of prefix "a:channel" arrive at prefix "a" on channel "broadcast".
  lemma GlobFreeInterfereIff(p: Channel, q: Channel)
    requires GlobFree(p)
    ensures Hears(p, q) <==> p == q || StartsWith(p + [COLON], KeyPrefix(q)) || StartsWith(q + [COLON], KeyPrefix(p))
  {
    PrefixesInterfereIff(p, q);
    LiteralFits(p, q);
    assert GlobFree(KeyPrefix(p)) && GlobFree(p + [COLON]);
    LiteralFits(KeyPrefix(p), q + [COLON]);
    assert |p| == |q| ==> q[..|p|] == q;
    var n := |KeyPrefix(q)|;
    if n <= |p| + 1 {
      var over := (p + [COLON])[..n];
      assert forall b | b in over :: b in p + [COLON];
      LiteralFits(over, KeyPrefix(q));
      assert KeyPrefix(q)[..n] == KeyPrefix(q);
    }
  }
}
