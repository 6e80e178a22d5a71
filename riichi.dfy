/** The tenpai search that gates the riichi declaration: `can_call_riichi` and its
    recursive completeness test `_riichi_test`, with the shape theory that explains them. */
module Riichi {
  import opened Tiles
  import opened Shapes

  /** The thirteen terminal and honour kinds, in the order the source lists them. */
  const ORPHANS: seq<int> := [0, 8, 9, 17, 18, 26, 27, 28, 29, 30, 31, 32, 33]
  const ORPHAN_SET: set<int> := {0, 8, 9, 17, 18, 26, 27, 28, 29, 30, 31, 32, 33}

  /** The kinds of `s` in order of first occurrence (the key order of a Python Counter). */
  function FirstOccurrences(s: seq<int>): (r: seq<int>)
    ensures forall x :: x in r <==> x in s
    ensures forall i, j :: 0 <= i < j < |r| ==> r[i] != r[j]
  {
    if s == [] then []
    else
      var r := FirstOccurrences(s[..|s| - 1]);
      assert s == s[..|s| - 1] + [s[|s| - 1]];
      if s[|s| - 1] in r then r else r + [s[|s| - 1]]
  }

  /** `list(Counter(hand).values())`: the multiplicity of each kind, kinds in order of first occurrence. */
  function CounterValues(s: seq<int>): seq<int>
  {
    var keys := FirstOccurrences(s);
    seq(|keys|, i requires 0 <= i < |keys| => Count(s, keys[i]))
  }

  /** The seven-pairs clause: the counter's values are exactly seven 2s. */
  predicate SevenPairs(hand: seq<int>)
  {
    CounterValues(hand) == [2, 2, 2, 2, 2, 2, 2]
  }

  /** The orphan clause: the hand is the thirteen-orphan list itself, or its kinds meet the
      orphan set in exactly twelve kinds. */
  predicate Orphans(hand: seq<int>)
  {
    hand == ORPHANS || |Distinct(hand) * ORPHAN_SET| == 12
  }

  /** `tiles_in_the_same_family(x, x + 1, x + 2)`, the family check of the run branch. */
  predicate RunFamily(x: int)
  {
    SameFamily([x, x + 1, x + 2])
  }

  /** The hand without one copy each of `hand[0]`, `hand[0] + 1` and `hand[0] + 2`, sorted. */
  function PeelRun(hand: seq<int>): (r: seq<int>)
    requires hand != [] && hand[0] + 1 in hand && hand[0] + 2 in hand
    ensures |r| == |hand| - 3 && Sorted(r)
    ensures multiset(r) == multiset(hand) - multiset{hand[0], hand[0] + 1, hand[0] + 2}
  {
    var x := hand[0];
    RemoveKeepsOthers(hand, x, x + 1);
    RemoveKeepsOthers(hand, x, x + 2);
    var a := Remove(hand, x);
    RemoveKeepsOthers(a, x + 1, x + 2);
    var b := Remove(a, x + 1);
    var c := Remove(b, x + 2);
    MinusThree(multiset(hand), x, x + 1, x + 2);
    Sort(c)
  }

  lemma MinusThree(m: multiset<int>, p: int, q: int, r: int)
    ensures m - multiset{p} - multiset{q} - multiset{r} == m - multiset{p, q, r}
  {
  }

  /** `_riichi_test`: is the (sorted) hand a complete shape, given whether a pair was already taken?
      Tries, in the source's order, the empty hand, the single tile, seven pairs, the orphan clause,
      a pair at the head (once), a triplet at the head, and a run starting at the head. Every
      recursive call gets a strictly shorter list. */
  function RiichiTest(hand: seq<int>, hadPair: bool): bool
    decreases |hand|
  {
    if |hand| == 0 then true
    else if |hand| == 1 then false
    else if SevenPairs(hand) then true
    else if Orphans(hand) then true
    else if hand[0] == hand[1] && !hadPair && RiichiTest(hand[2..], true) then true
    else if |hand| == 2 then false
    else if hand[0] == hand[1] && hand[1] == hand[2] && RiichiTest(hand[3..], hadPair) then true
    else if hand[0] + 1 in hand && hand[0] + 2 in hand && RunFamily(hand[0])
         && RiichiTest(PeelRun(hand), hadPair) then true
    else false
  }

  /** One candidate of the search: the hand with one `removed` tile replaced by `added`, sorted. */
  function Candidate(hand: seq<int>, removed: int, added: int): (c: seq<int>)
    requires removed in hand
    ensures Sorted(c) && |c| == |hand|
  {
    Sort(Remove(hand, removed) + [added])
  }

  /** The candidate holds the hand's tiles with one `removed` traded for one `added`. */
  lemma CandidateTiles(hand: seq<int>, removed: int, added: int)
    requires removed in hand
    ensures multiset(Candidate(hand, removed, added)) == multiset(hand) - multiset{removed} + multiset{added}
  {
  }

  /** Replacing one copy of `removed` by `added` leaves a hand the test accepts. */
  predicate Completes(hand: seq<int>, removed: int, added: int)
    requires removed in hand
  {
    RiichiTest(Candidate(hand, removed, added), false)
  }

  /** Some tile of the hand, replaced by some kind, leaves a hand the test accepts. */
  ghost predicate Tenpai(hand: seq<int>)
  {
    exists i, a :: 0 <= i < |hand| && 0 <= a < KINDS && Completes(hand, hand[i], a)
  }

  function SearchAdded(hand: seq<int>, i: int, a: int): bool
    requires 0 <= i < |hand| && 0 <= a <= KINDS
    decreases KINDS - a
  {
    if a == KINDS then false else Completes(hand, hand[i], a) || SearchAdded(hand, i, a + 1)
  }

  lemma {:induction false} SearchAddedFinds(hand: seq<int>, i: int, a: int)
    requires 0 <= i < |hand| && 0 <= a <= KINDS && SearchAdded(hand, i, a)
    ensures exists b :: a <= b < KINDS && Completes(hand, hand[i], b)
    decreases KINDS - a
  {
    if Completes(hand, hand[i], a) {
      assert a <= a < KINDS;
    } else {
      SearchAddedFinds(hand, i, a + 1);
      var b :| a + 1 <= b < KINDS && Completes(hand, hand[i], b);
      assert a <= b < KINDS;
    }
  }

  lemma SearchAddedStep(hand: seq<int>, i: int, a: int)
    requires 0 <= i < |hand| && 0 <= a < KINDS
    ensures SearchAdded(hand, i, a) == (Completes(hand, hand[i], a) || SearchAdded(hand, i, a + 1))
  {
  }

  lemma {:induction false} SearchAddedCovers(hand: seq<int>, i: int, a: int, b: int)
    requires 0 <= i < |hand| && 0 <= a <= b < KINDS && Completes(hand, hand[i], b)
    ensures SearchAdded(hand, i, a)
    decreases b - a
  {
    SearchAddedStep(hand, i, a);
    if b != a {
      SearchAddedCovers(hand, i, a + 1, b);
    }
  }

  lemma SearchAddedMeaning(hand: seq<int>, i: int, a: int)
    requires 0 <= i < |hand| && 0 <= a <= KINDS
    ensures SearchAdded(hand, i, a) <==> exists b :: a <= b < KINDS && Completes(hand, hand[i], b)
  {
    if SearchAdded(hand, i, a) {
      SearchAddedFinds(hand, i, a);
    }
    if exists b :: a <= b < KINDS && Completes(hand, hand[i], b) {
      var b :| a <= b < KINDS && Completes(hand, hand[i], b);
      SearchAddedCovers(hand, i, a, b);
    }
  }

  function SearchRemoved(hand: seq<int>, i: int): bool
    requires 0 <= i <= |hand|
    decreases |hand| - i
  {
    if i == |hand| then false else SearchAdded(hand, i, 0) || SearchRemoved(hand, i + 1)
  }

  lemma {:induction false} SearchRemovedFinds(hand: seq<int>, i: int)
    requires 0 <= i <= |hand| && SearchRemoved(hand, i)
    ensures exists j, b :: i <= j < |hand| && 0 <= b < KINDS && Completes(hand, hand[j], b)
    decreases |hand| - i
  {
    if SearchAdded(hand, i, 0) {
      SearchAddedFinds(hand, i, 0);
      var b :| 0 <= b < KINDS && Completes(hand, hand[i], b);
      assert i <= i < |hand|;
    } else {
      SearchRemovedFinds(hand, i + 1);
      var j, b :| i + 1 <= j < |hand| && 0 <= b < KINDS && Completes(hand, hand[j], b);
      assert i <= j < |hand|;
    }
  }

  lemma {:induction false} SearchRemovedCovers(hand: seq<int>, i: int, j: int, b: int)
    requires 0 <= i <= j < |hand| && 0 <= b < KINDS && Completes(hand, hand[j], b)
    ensures SearchRemoved(hand, i)
    decreases j - i
  {
    if j != i {
      SearchRemovedCovers(hand, i + 1, j, b);
    } else {
      SearchAddedCovers(hand, i, 0, b);
    }
  }

  lemma SearchRemovedMeaning(hand: seq<int>, i: int)
    requires 0 <= i <= |hand|
    ensures SearchRemoved(hand, i) <==> exists j, b :: i <= j < |hand| && 0 <= b < KINDS && Completes(hand, hand[j], b)
  {
    if SearchRemoved(hand, i) {
      SearchRemovedFinds(hand, i);
    }
    if exists j, b :: i <= j < |hand| && 0 <= b < KINDS && Completes(hand, hand[j], b) {
      var j, b :| i <= j < |hand| && 0 <= b < KINDS && Completes(hand, hand[j], b);
      SearchRemovedCovers(hand, i, j, b);
    }
  }

  /** `can_call_riichi`: false for any hand that is not 14 tiles long; otherwise true exactly when
      some tile, replaced by some kind, leaves a hand `_riichi_test` accepts (the nested loops stop at
      the first success, which does not change the answer). */
  function CanCallRiichi(hand: seq<int>): bool
  {
    |hand| == 14 && SearchRemoved(hand, 0)
  }

  lemma CanCallRiichiMeaning(hand: seq<int>)
    ensures CanCallRiichi(hand) <==> |hand| == 14 && Tenpai(hand)
  {
    SearchRemovedMeaning(hand, 0);
  }

  /** One trade that completes the hand is enough for `can_call_riichi`. */
  lemma CompletesReady(hand: seq<int>, i: int, a: int)
    requires |hand| == 14 && 0 <= i < |hand| && 0 <= a < KINDS && Completes(hand, hand[i], a)
    ensures CanCallRiichi(hand)
  {
    SearchRemovedCovers(hand, 0, i, a);
  }

  /** The answer depends only on which tiles the hand holds, not on their order. */
  lemma CanCallRiichiPermutation(h1: seq<int>, h2: seq<int>)
    requires multiset(h1) == multiset(h2)
    ensures CanCallRiichi(h1) == CanCallRiichi(h2)
  {
    assert |h1| == |multiset(h1)| == |h2|;
    CanCallRiichiMeaning(h1);
    CanCallRiichiMeaning(h2);
    if Tenpai(h1) { TenpaiTransfer(h1, h2); }
    if Tenpai(h2) { TenpaiTransfer(h2, h1); }
  }

  lemma TenpaiTransfer(h1: seq<int>, h2: seq<int>)
    requires multiset(h1) == multiset(h2) && Tenpai(h1)
    ensures Tenpai(h2)
  {
    var i, a :| 0 <= i < |h1| && 0 <= a < KINDS && Completes(h1, h1[i], a);
    var r := h1[i];
    assert r in multiset(h2);
    var j :| 0 <= j < |h2| && h2[j] == r;
    var c1 := Candidate(h1, r, a);
    var c2 := Candidate(h2, r, a);
    CandidateTiles(h1, r, a);
    CandidateTiles(h2, r, a);
    SortedUnique(c1, c2);
    assert Completes(h2, h2[j], a);
  }

  // ---------------------------------------------------------------------------------------------
  // The special clauses in plain words

  lemma {:induction false} DistinctCount(r: seq<int>)
    requires forall i, j :: 0 <= i < j < |r| ==> r[i] != r[j]
    ensures |Distinct(r)| == |r|
  {
    if r != [] {
      var p := r[..|r| - 1];
      DistinctCount(p);
      assert r == p + [r[|r| - 1]];
      assert Distinct(r) == Distinct(p) + {r[|r| - 1]};
      assert r[|r| - 1] !in Distinct(p);
    }
  }

  /** Seven pairs means exactly seven distinct kinds, each held twice. */
  lemma SevenPairsMeaning(hand: seq<int>)
    ensures SevenPairs(hand) <==> |Distinct(hand)| == 7 && forall x :: x in hand ==> Count(hand, x) == 2
  {
    var keys := FirstOccurrences(hand);
    DistinctCount(keys);
    assert Distinct(keys) == Distinct(hand);
    var cv := CounterValues(hand);
    assert |cv| == |keys|;
    if SevenPairs(hand) {
      forall x | x in hand ensures Count(hand, x) == 2 {
        var i :| 0 <= i < |keys| && keys[i] == x;
        assert cv[i] == 2;
      }
    }
    if |Distinct(hand)| == 7 && forall x :: x in hand ==> Count(hand, x) == 2 {
      forall i | 0 <= i < 7 ensures cv[i] == 2 { assert keys[i] in hand; }
    }
  }

  lemma OrphanSetSize()
    ensures |ORPHAN_SET| == 13
  {
  }

  /** A hand holding all thirteen orphan kinds fails the orphan clause unless it is the bare
      orphan list: the intersection then has thirteen kinds, not twelve. */
  lemma AllThirteenOrphansMissClause(hand: seq<int>)
    requires ORPHAN_SET <= Distinct(hand) && hand != ORPHANS
    ensures !Orphans(hand)
  {
    assert Distinct(hand) * ORPHAN_SET == ORPHAN_SET;
    OrphanSetSize();
  }

  /** The orphan clause looks only at twelve orphan kinds; the other tiles may be anything. */
  lemma TwelveOrphansAccepted(hand: seq<int>, hadPair: bool)
    requires |Distinct(hand) * ORPHAN_SET| == 12
    ensures RiichiTest(hand, hadPair)
  {
    DistinctSize(hand);
    SubsetSize(Distinct(hand) * ORPHAN_SET, Distinct(hand));
  }

  lemma OrphanListAccepted(hadPair: bool)
    ensures RiichiTest(ORPHANS, hadPair)
  {
  }

  /** A seven-pairs hand is accepted whether or not a pair was already taken. */
  lemma SevenPairsAccepted(hand: seq<int>, hadPair: bool)
    requires |Distinct(hand)| == 7 && forall x :: x in hand ==> Count(hand, x) == 2
    ensures RiichiTest(hand, hadPair)
  {
    SevenPairsMeaning(hand);
    DistinctSize(hand);
  }

  /** The base cases: nothing left is complete, one tile never is, and two tiles are exactly
      when they form the first pair. */
  lemma BaseCases(x: int, y: int, hadPair: bool)
    ensures RiichiTest([], hadPair)
    ensures !RiichiTest([x], hadPair)
    ensures RiichiTest([x, y], hadPair) <==> x == y && !hadPair
  {
    var h := [x, y];
    DistinctSize(h);
    SubsetSize(Distinct(h) * ORPHAN_SET, Distinct(h));
    var keys := FirstOccurrences(h);
    DistinctCount(keys);
    assert Distinct(keys) == Distinct(h);
    assert |CounterValues(h)| == |keys| <= 2;
    assert !SevenPairs(h);
    assert h[2..] == [];
  }
}
