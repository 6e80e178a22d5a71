/** Tile kinds, tile instances, and the list operations the game state uses
    (Python's list.count, list.remove, list.sort and the "remove while present" loop). */
module Tiles {

  /** Number of tile kinds: three suits of nine ranks, then seven honours. */
  const KINDS: int := 34
  /** The first honour kind (East). */
  const FIRST_HONOUR: int := 27

  predicate IsKind(x: int) { 0 <= x < KINDS }

  predicate AllKinds(s: seq<int>) { forall i :: 0 <= i < |s| ==> IsKind(s[i]) }

  /** A physical tile: four copies of each of the 34 kinds. */
  type Instance = x: int | 0 <= x < 4 * KINDS

  /** The kind of a physical tile (`tile // 4`). */
  function KindOf(t: Instance): (k: int)
    ensures IsKind(k)
    ensures 4 * k <= t < 4 * k + 4
  {
    t / 4
  }

  /** Kinds of a list of physical tiles, position by position (`[t // 4 for t in ts]`). */
  function KindsOf(ts: seq<int>): (ks: seq<int>)
    ensures |ks| == |ts|
    ensures (forall i :: 0 <= i < |ts| ==> 0 <= ts[i] < 4 * KINDS) ==> AllKinds(ks)
  {
    seq(|ts|, i requires 0 <= i < |ts| => ts[i] / 4)
  }

  /** Python's `list.count(x)`. */
  function Count(s: seq<int>, x: int): nat
  {
    multiset(s)[x]
  }

  predicate Sorted(s: seq<int>)
  {
    forall i, j :: 0 <= i < j < |s| ==> s[i] <= s[j]
  }

  lemma AllKindsMultiset(s: seq<int>, t: seq<int>)
    requires AllKinds(s) && multiset(t) <= multiset(s)
    ensures AllKinds(t)
  {
    forall i | 0 <= i < |t| ensures IsKind(t[i]) {
      assert t[i] in multiset(t);
      assert t[i] in multiset(s);
      var j :| 0 <= j < |s| && s[j] == t[i];
    }
  }

  lemma SortedTail(s: seq<int>)
    requires Sorted(s) && s != []
    ensures Sorted(s[1..]) && forall x :: x in multiset(s) ==> s[0] <= x
  {
    forall x | x in multiset(s) ensures s[0] <= x {
      var j :| 0 <= j < |s| && s[j] == x;
    }
  }

  /** Inserts `x` before the first element that is not smaller. */
  function Insert(x: int, s: seq<int>): (r: seq<int>)
    requires Sorted(s)
    ensures Sorted(r)
    ensures multiset(r) == multiset(s) + multiset{x}
  {
    if s == [] || x <= s[0] then
      [x] + s
    else
      SortedTail(s);
      var rest := Insert(x, s[1..]);
      InsertTail(x, s, rest);
      [s[0]] + rest
  }

  /** The inductive step of `Insert`: the head stays in front of the tail with `x` inserted. */
  lemma InsertTail(x: int, s: seq<int>, rest: seq<int>)
    requires Sorted(s) && s != [] && s[0] < x && Sorted(rest)
    requires multiset(rest) == multiset(s[1..]) + multiset{x}
    ensures Sorted([s[0]] + rest)
    ensures multiset([s[0]] + rest) == multiset(s) + multiset{x}
  {
    assert s == [s[0]] + s[1..];
    forall y | y in multiset(rest) ensures s[0] <= y {
      if y != x {
        assert y in multiset(s[1..]);
        var k :| 0 <= k < |s[1..]| && s[1..][k] == y;
        assert s[k + 1] == y;
      }
    }
    LeadingMin(s[0], rest);
  }

  /** The head of a sorted list may precede any sorted sub-multiset of its tail. */
  lemma HeadBeforeSubset(s: seq<int>, r: seq<int>)
    requires Sorted(s) && s != [] && Sorted(r) && multiset(r) <= multiset(s[1..])
    ensures Sorted([s[0]] + r)
  {
    forall y | y in multiset(r) ensures s[0] <= y {
      assert y in multiset(s[1..]);
      var k :| 0 <= k < |s[1..]| && s[1..][k] == y;
      assert s[k + 1] == y;
    }
    LeadingMin(s[0], r);
  }

  lemma LeadingMin(x: int, s: seq<int>)
    requires Sorted(s)
    requires forall y :: y in multiset(s) ==> x <= y
    ensures Sorted([x] + s)
  {
    forall i | 0 <= i < |s| ensures x <= s[i] { assert s[i] in multiset(s); }
  }

  /** Python's `list.sort()` / `sorted(...)` on integers (the result, not the algorithm). */
  function Sort(s: seq<int>): (r: seq<int>)
    ensures Sorted(r)
    ensures multiset(r) == multiset(s)
    ensures |r| == |s|
  {
    if s == [] then []
    else
      assert s == s[..|s| - 1] + [s[|s| - 1]];
      var r := Insert(s[|s| - 1], Sort(s[..|s| - 1]));
      assert |multiset(r)| == |multiset(s)|;
      r
  }

  /** A sorted list is determined by its multiset. */
  lemma {:induction false} SortedUnique(a: seq<int>, b: seq<int>)
    requires Sorted(a) && Sorted(b) && multiset(a) == multiset(b)
    ensures a == b
  {
    assert |a| == |multiset(a)| == |multiset(b)| == |b|;
    if a != [] {
      SortedTail(a);
      SortedTail(b);
      assert a[0] in multiset(a);
      assert b[0] in multiset(b);
      assert a[0] <= b[0] && b[0] <= a[0];
      assert a == [a[0]] + a[1..];
      assert b == [b[0]] + b[1..];
      calc {
        multiset(a[1..]);
        multiset([a[0]] + a[1..]) - multiset{a[0]};
        { assert [a[0]] + a[1..] == a; }
        multiset(a) - multiset{a[0]};
        multiset(b) - multiset{b[0]};
        { assert [b[0]] + b[1..] == b; }
        multiset([b[0]] + b[1..]) - multiset{b[0]};
        multiset(b[1..]);
      }
      SortedUnique(a[1..], b[1..]);
    }
  }

  /** Sorting a list depends only on its multiset; a sorted list sorts to itself. */
  lemma SortIsCanonical(s: seq<int>, t: seq<int>)
    requires multiset(s) == multiset(t)
    ensures Sort(s) == Sort(t)
  {
    SortedUnique(Sort(s), Sort(t));
  }

  lemma SortOfSorted(s: seq<int>)
    requires Sorted(s)
    ensures Sort(s) == s
  {
    SortedUnique(Sort(s), s);
  }

  /** Taking kinds keeps a sorted list sorted. */
  lemma KindsOfSorted(ts: seq<int>)
    requires Sorted(ts)
    ensures Sorted(KindsOf(ts))
  {
  }

  lemma KindsOfConcat(s: seq<int>, t: seq<int>)
    ensures KindsOf(s + t) == KindsOf(s) + KindsOf(t)
  {
  }

  /** Taking one tile out of a list takes its kind out of the list's kinds. */
  lemma KindsOfLift(b: seq<int>, i: int)
    requires 0 <= i < |b|
    ensures multiset(KindsOf(b)) == multiset(KindsOf(b[..i] + b[i + 1..])) + multiset{b[i] / 4}
    ensures multiset(b) == multiset(b[..i] + b[i + 1..]) + multiset{b[i]}
  {
    var front, back := b[..i], b[i + 1..];
    assert b == front + [b[i]] + back;
    KindsOfConcat(front + [b[i]], back);
    KindsOfConcat(front, [b[i]]);
    KindsOfConcat(front, back);
  }

  lemma IndexOfMember(b: seq<int>, x: int) returns (i: int)
    requires x in multiset(b)
    ensures 0 <= i < |b| && b[i] == x
  {
    i :| 0 <= i < |b| && b[i] == x;
  }

  /** Taking kinds of two lists holding the same tiles gives lists holding the same kinds. */
  lemma {:induction false} KindsOfPermutation(a: seq<int>, b: seq<int>)
    requires multiset(a) == multiset(b)
    ensures multiset(KindsOf(a)) == multiset(KindsOf(b))
    decreases |a|
  {
    if a != [] {
      var i := IndexOfMember(b, a[0]);
      KindsOfLift(a, 0);
      KindsOfLift(b, i);
      assert multiset(a[..0] + a[1..]) == multiset(a) - multiset{a[0]};
      KindsOfPermutation(a[..0] + a[1..], b[..i] + b[i + 1..]);
    } else {
      assert |b| == |multiset(b)| == 0;
    }
  }

  /** Python's `list.remove(x)`: drops the first occurrence of `x` (raises when absent). */
  function Remove(s: seq<int>, x: int): (r: seq<int>)
    requires x in s
    ensures multiset(r) == multiset(s) - multiset{x}
    ensures |r| == |s| - 1
  {
    if s[0] == x then
      assert s == [s[0]] + s[1..];
      s[1..]
    else
      assert s == [s[0]] + s[1..];
      [s[0]] + Remove(s[1..], x)
  }

  /** Removing one value leaves every other value present. */
  lemma RemoveKeepsOthers(s: seq<int>, x: int, y: int)
    requires x in s && y in s && x != y
    ensures y in Remove(s, x)
  {
    assert multiset(Remove(s, x))[y] == multiset(s)[y];
  }

  /** Remove takes out exactly the first occurrence, keeping the order of the rest. */
  lemma {:induction false} RemoveAt(s: seq<int>, i: nat)
    requires i < |s| && s[i] !in s[..i]
    ensures Remove(s, s[i]) == s[..i] + s[i + 1..]
  {
    if i == 0 {
      assert s[..0] + s[1..] == s[1..];
    } else {
      FirstNotEarlier(s, i);
      RemoveAt(s[1..], i - 1);
      SplitAfterHead(s, i);
    }
  }

  lemma FirstNotEarlier(s: seq<int>, i: nat)
    requires 0 < i < |s| && s[i] !in s[..i]
    ensures s[0] != s[i] && s[1..][i - 1] == s[i] && s[1..][i - 1] !in s[1..][..i - 1]
  {
    assert s[..i][0] == s[0];
    assert s[1..][..i - 1] == s[1..i];
    forall j | 1 <= j < i ensures s[j] != s[i] {
      assert s[j] == s[..i][j];
    }
  }

  lemma SplitAfterHead(s: seq<int>, i: nat)
    requires 0 < i < |s|
    ensures [s[0]] + (s[1..][..i - 1] + s[1..][i..]) == s[..i] + s[i + 1..]
  {
    assert s[1..][..i - 1] == s[1..i] && s[1..][i..] == s[i + 1..];
    assert s[..i] == [s[0]] + s[1..i];
  }

  lemma {:induction false} RemoveKeepsSorted(s: seq<int>, x: int)
    requires x in s && Sorted(s)
    ensures Sorted(Remove(s, x))
  {
    if s[0] != x {
      SortedTail(s);
      assert x in s[1..] by { assert s == [s[0]] + s[1..]; }
      RemoveKeepsSorted(s[1..], x);
      HeadBeforeSubset(s, Remove(s[1..], x));
    } else {
      SortedTail(s);
    }
  }

  /** The hand left after removing each tile of `rs` in turn (Python's `for t in rs: hand.remove(t)`);
      defined when every removal finds its tile. */
  predicate CanRemoveEach(s: seq<int>, rs: seq<int>)
    decreases |rs|
  {
    rs == [] || (rs[0] in s && CanRemoveEach(Remove(s, rs[0]), rs[1..]))
  }

  function RemoveEach(s: seq<int>, rs: seq<int>): (r: seq<int>)
    requires CanRemoveEach(s, rs)
    decreases |rs|
  {
    if rs == [] then s else RemoveEach(Remove(s, rs[0]), rs[1..])
  }

  /** Removing tiles one by one succeeds exactly when they form a sub-multiset,
      and then takes exactly that multiset away. */
  lemma {:induction false} RemoveEachSpec(s: seq<int>, rs: seq<int>)
    ensures CanRemoveEach(s, rs) <==> multiset(rs) <= multiset(s)
    ensures CanRemoveEach(s, rs) ==>
      multiset(RemoveEach(s, rs)) == multiset(s) - multiset(rs) && |RemoveEach(s, rs)| == |s| - |rs|
    decreases |rs|
  {
    if rs != [] {
      var x, rest := rs[0], rs[1..];
      assert multiset(rs) == multiset(rest) + multiset{x} by { assert rs == [x] + rest; }
      if x in s {
        var s' := Remove(s, x);
        RemoveEachSpec(s', rest);
        MinusOne(multiset(rest), multiset(s), x);
      } else {
        assert x !in multiset(s);
      }
    }
  }

  /** Multiset bookkeeping for taking one more element away. */
  lemma MinusOne(a: multiset<int>, b: multiset<int>, x: int)
    requires x in b
    ensures a <= b - multiset{x} <==> a + multiset{x} <= b
    ensures (b - multiset{x}) - a == b - (a + multiset{x})
  {
  }

  /** `s` with every copy of `x` dropped, order kept. */
  function Without(s: seq<int>, x: int): (r: seq<int>)
  {
    if s == [] then []
    else if s[0] == x then Without(s[1..], x)
    else [s[0]] + Without(s[1..], x)
  }

  lemma {:induction false} WithoutSpec(s: seq<int>, x: int)
    ensures x !in Without(s, x)
    ensures forall y :: y != x ==> multiset(Without(s, x))[y] == multiset(s)[y]
    ensures x !in s ==> Without(s, x) == s
  {
    if s != [] {
      WithoutSpec(s[1..], x);
      assert s == [s[0]] + s[1..];
    }
  }

  /** Dropping copies only takes tiles away. */
  lemma {:induction false} WithoutShrinks(s: seq<int>, x: int)
    ensures multiset(Without(s, x)) <= multiset(s)
  {
    if s != [] {
      WithoutShrinks(s[1..], x);
      assert s == [s[0]] + s[1..];
    }
  }

  lemma {:induction false} WithoutRemove(s: seq<int>, x: int)
    requires x in s
    ensures Without(Remove(s, x), x) == Without(s, x)
  {
    if s[0] != x {
      WithoutRemove(s[1..], x);
    }
  }

  /** `n` copies of `x`. */
  function Repeat(x: int, n: nat): (r: seq<int>)
    ensures |r| == n && forall i :: 0 <= i < n ==> r[i] == x
    ensures multiset(r)[x] == n
    ensures forall y :: y != x ==> y !in multiset(r)
  {
    if n == 0 then [] else Repeat(x, n - 1) + [x]
  }

  /** The kinds present in a list (Python's `set(hand)`). */
  function Distinct(s: seq<int>): set<int>
  {
    set x | x in s
  }

  lemma {:induction false} DistinctSize(s: seq<int>)
    ensures |Distinct(s)| <= |s|
  {
    if s != [] {
      DistinctSize(s[1..]);
      assert Distinct(s) == Distinct(s[1..]) + {s[0]};
    }
  }
}
