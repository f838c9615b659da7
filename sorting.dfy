/** Go's `sort.Strings`, and the canonical ascending enumeration of a set of
    strings that every sorted rendering in the engine is specified by. */
module Sorting {
  import opened Strings

  /** `a` sorts no later than `b`. */
  predicate Leq(a: string, b: string)
  {
    !LexLess(b, a)
  }

  lemma LeqTransitive(a: string, b: string, c: string)
    requires Leq(a, b) && Leq(b, c)
    ensures Leq(a, c)
  {
    if LexLess(c, a) {
      if a != b { LexLessTotal(a, b); }
      if b != c { LexLessTotal(b, c); }
      if a != b && b != c {
        LexLessTransitive(a, b, c);
      }
      LexLessAsymmetric(c, a);
    }
  }

  lemma LessLeq(a: string, b: string)
    requires LexLess(a, b)
    ensures Leq(a, b)
  {
    LexLessAsymmetric(a, b);
  }

  /** Ascending, ties allowed. */
  predicate Sorted(s: seq<string>)
  {
    forall i, j :: 0 <= i < j < |s| ==> Leq(s[i], s[j])
  }

  /** Ascending without repeats. */
  predicate StrictlySorted(s: seq<string>)
  {
    forall i, j :: 0 <= i < j < |s| ==> LexLess(s[i], s[j])
  }

  /** In a strictly sorted sequence a value sits at one index only. */
  lemma SortedIndexUnique(s: seq<string>, i: int, j: int)
    requires StrictlySorted(s)
    requires 0 <= i < |s| && 0 <= j < |s| && s[i] == s[j]
    ensures i == j
  {
    LexLessIrreflexive(s[i]);
  }

  predicate Distinct<T(==)>(s: seq<T>)
  {
    forall i, j :: 0 <= i < j < |s| ==> s[i] != s[j]
  }

  /** Insert `x` into a sorted list before the first element not below it. */
  function Insert(x: string, s: seq<string>): (r: seq<string>)
    ensures multiset(r) == multiset(s) + multiset{x}
    ensures Sorted(s) ==> Sorted(r)
    ensures StrictlySorted(s) && x !in s ==> StrictlySorted(r)
    decreases |s|, 2
  {
    if s == [] then [x]
    else if !LexLess(s[0], x) then
      InsertFront(x, s);
      [x] + s
    else
      var r := [s[0]] + Insert(x, s[1..]);
      assert s == [s[0]] + s[1..];
      InsertBehind(x, s, r);
      r
  }

  lemma InsertFront(x: string, s: seq<string>)
    requires s != [] && !LexLess(s[0], x)
    ensures Sorted(s) ==> Sorted([x] + s)
    ensures StrictlySorted(s) && x !in s ==> StrictlySorted([x] + s)
  {
    var r := [x] + s;
    if Sorted(s) {
      forall i, j | 0 <= i < j < |r| ensures Leq(r[i], r[j]) {
        if i == 0 && j > 1 {
          LeqTransitive(x, s[0], s[j - 1]);
        }
      }
    }
    if StrictlySorted(s) && x !in s {
      assert x != s[0];
      LexLessTotal(x, s[0]);
      forall i, j | 0 <= i < j < |r| ensures LexLess(r[i], r[j]) {
        if i == 0 && j > 1 {
          LexLessTransitive(x, s[0], s[j - 1]);
        }
      }
    }
  }

  /** Inserting adds `x` and nothing else. */
  lemma InsertMembers(x: string, s: seq<string>)
    ensures forall y :: y in Insert(x, s) ==> y == x || y in s
    decreases |s|, 3
  {
    var t := Insert(x, s);
    forall y | y in t ensures y == x || y in s {
      assert y in multiset(t);
    }
  }

  /** The head of `s` stays in front when `x` goes behind it. */
  lemma InsertBehind(x: string, s: seq<string>, r: seq<string>)
    requires s != [] && LexLess(s[0], x)
    requires r == [s[0]] + Insert(x, s[1..])
    ensures Sorted(s) ==> Sorted(r)
    ensures StrictlySorted(s) && x !in s ==> StrictlySorted(r)
    decreases |s|, 1
  {
    if Sorted(s) {
      InsertBehindSorted(x, s, r);
    }
    if StrictlySorted(s) && x !in s {
      InsertBehindStrict(x, s, r);
    }
  }

  lemma InsertBehindSorted(x: string, s: seq<string>, r: seq<string>)
    requires s != [] && LexLess(s[0], x) && Sorted(s)
    requires r == [s[0]] + Insert(x, s[1..])
    ensures Sorted(r)
    decreases |s|, 0
  {
    var t := Insert(x, s[1..]);
    assert Sorted(t) by {
      assert Sorted(s[1..]);
    }
    assert forall k :: 0 <= k < |t| ==> Leq(s[0], t[k]) by {
      InsertMembers(x, s[1..]);
      forall k | 0 <= k < |t| ensures Leq(s[0], t[k]) {
        if t[k] == x {
          LessLeq(s[0], x);
        } else {
          assert t[k] in s[1..];
          var m :| 1 <= m < |s| && s[m] == t[k];
        }
      }
    }
    forall i, j | 0 <= i < j < |r| ensures Leq(r[i], r[j]) {
      assert r[j] == t[j - 1];
      if i > 0 {
        assert r[i] == t[i - 1];
      }
    }
  }

  lemma InsertBehindStrict(x: string, s: seq<string>, r: seq<string>)
    requires s != [] && LexLess(s[0], x) && StrictlySorted(s) && x !in s
    requires r == [s[0]] + Insert(x, s[1..])
    ensures StrictlySorted(r)
    decreases |s|, 0
  {
    var t := Insert(x, s[1..]);
    assert StrictlySorted(t) by {
      assert StrictlySorted(s[1..]);
      assert x !in s[1..];
    }
    assert forall k :: 0 <= k < |t| ==> LexLess(s[0], t[k]) by {
      InsertMembers(x, s[1..]);
      forall k | 0 <= k < |t| ensures LexLess(s[0], t[k]) {
        if t[k] != x {
          assert t[k] in s[1..];
          var m :| 1 <= m < |s| && s[m] == t[k];
        }
      }
    }
    forall i, j | 0 <= i < j < |r| ensures LexLess(r[i], r[j]) {
      assert r[j] == t[j - 1];
      if i > 0 {
        assert r[i] == t[i - 1];
      }
    }
  }

  /** Go's `sort.Strings`: an ascending permutation of its input. */
  function SortStrings(s: seq<string>): (r: seq<string>)
    ensures multiset(r) == multiset(s) && Sorted(r)
    ensures Distinct(s) ==> StrictlySorted(r)
  {
    if s == [] then []
    else
      var t := SortStrings(s[1..]);
      assert s == [s[0]] + s[1..];
      assert Distinct(s) ==> s[0] !in multiset(s[1..]);
      Insert(s[0], t)
  }

  // ---------------------------------------------------------------------------
  // The canonical enumeration of a set
  // ---------------------------------------------------------------------------

  /** `x` is the member of `s` that sorts before every other member. */
  predicate IsLeast(x: string, s: set<string>)
  {
    x in s && forall y :: y in s && y != x ==> LexLess(x, y)
  }

  lemma {:induction false} MinExists(s: set<string>)
    requires s != {}
    ensures exists x :: IsLeast(x, s)
    decreases |s|
  {
    var z :| z in s;
    if s == {z} {
      assert IsLeast(z, s);
    } else {
      var rest := s - {z};
      MinExists(rest);
      var m :| IsLeast(m, rest);
      LexLessTotal(z, m);
      if LexLess(z, m) {
        forall y | y in s && y != z ensures LexLess(z, y) {
          if y != m { LexLessTransitive(z, m, y); }
        }
        assert IsLeast(z, s);
      } else {
        assert IsLeast(m, s);
      }
    }
  }

  /** The members of `s` in strictly ascending order. */
  ghost function SortedSeq(s: set<string>): (r: seq<string>)
    ensures StrictlySorted(r) && |r| == |s|
    ensures forall x :: x in r <==> x in s
    decreases |s|
  {
    if s == {} then []
    else
      MinExists(s);
      var x :| IsLeast(x, s);
      var rest := SortedSeq(s - {x});
      assert forall j :: 0 <= j < |rest| ==> LexLess(x, rest[j]) by {
        forall j | 0 <= j < |rest| ensures LexLess(x, rest[j]) {
          assert rest[j] in rest;
        }
      }
      [x] + rest
  }

  lemma HeadIn(s: seq<string>)
    requires s != []
    ensures s[0] in s
  {
  }

  /** A set has only one strictly ascending enumeration. */
  lemma {:induction false} StrictlySortedUnique(a: seq<string>, b: seq<string>)
    requires StrictlySorted(a) && StrictlySorted(b)
    requires forall x :: x in a <==> x in b
    ensures a == b
  {
    if a != [] && b != [] {
      assert a[0] in a && b[0] in b;
      if a[0] != b[0] {
        var i :| 0 <= i < |b| && b[i] == a[0];
        var j :| 0 <= j < |a| && a[j] == b[0];
        assert LexLess(b[0], a[0]) && LexLess(a[0], b[0]);
        LexLessAsymmetric(a[0], b[0]);
      }
      assert a == [a[0]] + a[1..] && b == [b[0]] + b[1..];
      forall x ensures x in a[1..] <==> x in b[1..] {
        if x in a[1..] {
          var i :| 0 <= i < |a[1..]| && a[1..][i] == x;
          assert a[i + 1] == x;
          LexLessIrreflexive(a[0]);
          assert x != b[0] && x in b;
          var k :| 0 <= k < |b| && b[k] == x;
          assert b[1..][k - 1] == x;
        }
        if x in b[1..] {
          var i :| 0 <= i < |b[1..]| && b[1..][i] == x;
          assert b[i + 1] == x;
          LexLessIrreflexive(b[0]);
          assert x != a[0] && x in a;
          var k :| 0 <= k < |a| && a[k] == x;
          assert a[1..][k - 1] == x;
        }
      }
      StrictlySortedUnique(a[1..], b[1..]);
    } else if a != [] {
      HeadIn(a);
      assert false;
    } else if b != [] {
      HeadIn(b);
      assert false;
    }
  }

  /** The keys of `m`, listed as Go's `for k := range m` followed by
      `sort.Strings` lists them. */
  method SortedKeys<V>(m: map<string, V>) returns (keys: seq<string>)
    ensures keys == SortedSeq(m.Keys)
  {
    var collected: seq<string> := [];
    var rest := m.Keys;
    while rest != {}
      invariant rest <= m.Keys
      invariant forall k :: k in collected <==> k in m.Keys && k !in rest
      invariant Distinct(collected)
      decreases |rest|
    {
      var k :| k in rest;
      collected := collected + [k];
      rest := rest - {k};
    }
    keys := SortStrings(collected);
    forall k ensures k in keys <==> k in m.Keys {
      assert k in keys <==> k in multiset(keys);
      assert k in collected <==> k in multiset(collected);
    }
    StrictlySortedUnique(keys, SortedSeq(m.Keys));
  }
}
