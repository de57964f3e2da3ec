// The order of Go strings, and sorting by it.
module ByteOrder {
  import opened Bytes

  // Go's <= on strings.
  predicate LexLeq(a: seq<byte>, b: seq<byte>) {
    a == [] || (b != [] && (a[0] < b[0] || (a[0] == b[0] && LexLeq(a[1..], b[1..]))))
  }

  lemma {:induction false} LexTotal(a: seq<byte>, b: seq<byte>)
    ensures LexLeq(a, b) || LexLeq(b, a)
  {
    if a != [] && b != [] {
      LexTotal(a[1..], b[1..]);
    }
  }

  lemma {:induction false} LexTransitive(a: seq<byte>, b: seq<byte>, c: seq<byte>)
    requires LexLeq(a, b) && LexLeq(b, c)
    ensures LexLeq(a, c)
  {
    if a != [] && b != [] && c != [] && a[0] == b[0] == c[0] {
      LexTransitive(a[1..], b[1..], c[1..]);
    }
  }

  lemma {:induction false} LexAntisymmetric(a: seq<byte>, b: seq<byte>)
    requires LexLeq(a, b) && LexLeq(b, a)
    ensures a == b
  {
    if a != [] && b != [] {
      LexAntisymmetric(a[1..], b[1..]);
    }
  }

  ghost predicate SortedBy<T>(s: seq<T>, key: T -> seq<byte>) {
    forall i, j | 0 <= i < j < |s| :: LexLeq(key(s[i]), key(s[j]))
  }

  predicate NoDuplicates<T(==)>(s: seq<T>) {
    forall i, j | 0 <= i < j < |s| :: s[i] != s[j]
  }

  lemma NoDuplicatesAppend<T>(a: seq<T>, b: seq<T>)
    requires NoDuplicates(a) && NoDuplicates(b) && forall x | x in a :: x !in b
    ensures NoDuplicates(a + b)
  {
    forall i, j | 0 <= i < j < |a + b| ensures (a + b)[i] != (a + b)[j] {
      if i < |a| <= j {
        assert (a + b)[i] in a && (a + b)[j] in b;
      }
    }
  }

  // The elements of a map's key set, each once, in the order of their keys.
  method SortSet<T(==)>(items: set<T>, key: T -> seq<byte>) returns (s: seq<T>)
    ensures SortedBy(s, key)
    ensures |s| == |items| && forall x :: x in s <==> x in items
    ensures NoDuplicates(s)
  {
    s := [];
    var rest := items;
    while rest != {}
      invariant SortedBy(s, key) && rest <= items
      invariant |s| + |rest| == |items| && forall x :: x in s <==> x in items - rest
      invariant NoDuplicates(s)
    {
      var x :| x in rest;
      var i := 0;
      while i < |s| && LexLeq(key(s[i]), key(x))
        invariant i <= |s| && forall k | 0 <= k < i :: LexLeq(key(s[k]), key(x))
      {
        i := i + 1;
      }
      InsertKeepsSorted(s, key, x, i);
      s := s[..i] + [x] + s[i..];
      rest := rest - {x};
    }
  }

  lemma InsertKeepsSorted<T>(s: seq<T>, key: T -> seq<byte>, x: T, i: nat)
    requires SortedBy(s, key) && i <= |s| && NoDuplicates(s) && x !in s
    requires forall k | 0 <= k < i :: LexLeq(key(s[k]), key(x))
    requires i < |s| ==> !LexLeq(key(s[i]), key(x))
    ensures SortedBy(s[..i] + [x] + s[i..], key) && NoDuplicates(s[..i] + [x] + s[i..])
    ensures forall y :: y in s[..i] + [x] + s[i..] <==> y in s || y == x
  {
    var t := s[..i] + [x] + s[i..];
    forall j | i <= j < |s| ensures LexLeq(key(x), key(s[j])) {
      LexTotal(key(x), key(s[i]));
      if i < j {
        LexTransitive(key(x), key(s[i]), key(s[j]));
      }
    }
    forall y ensures y in t <==> y in s || y == x {
      assert s == s[..i] + s[i..];
    }
  }

  ghost predicate DistinctKeys<T>(s: seq<T>, key: T -> seq<byte>) {
    forall i, j | 0 <= i < j < |s| :: key(s[i]) != key(s[j])
  }

  // With distinct keys there is only one such order.
  lemma {:induction false} SortIsUnique<T>(s: seq<T>, t: seq<T>, key: T -> seq<byte>)
    requires SortedBy(s, key) && SortedBy(t, key) && |s| == |t|
    requires DistinctKeys(s, key) && DistinctKeys(t, key)
    requires forall x :: x in s <==> x in t
    ensures s == t
  {
    if s != [] {
      FirstIsLeast(s, key, t[0]);
      FirstIsLeast(t, key, s[0]);
      LexAntisymmetric(key(s[0]), key(t[0]));
      var i :| 0 <= i < |s| && s[i] == t[0];
      assert i == 0;
      forall x ensures x in s[1..] <==> x in t[1..] {
        assert x in s <==> x in t;
        assert s == [s[0]] + s[1..] && t == [t[0]] + t[1..];
      }
      SortIsUnique(s[1..], t[1..], key);
    }
  }

  lemma FirstIsLeast<T>(s: seq<T>, key: T -> seq<byte>, x: T)
    requires SortedBy(s, key) && x in s
    ensures LexLeq(key(s[0]), key(x))
  {
    LexTotal(key(x), key(x));
  }
}
