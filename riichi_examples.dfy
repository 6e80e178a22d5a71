/** The example hands of the riichi test script, and the boundary cases of the orphan clause. */
module RiichiExamples {
  import opened Tiles
  import opened Shapes
  import opened Riichi
  import opened HandShapes

  /** A run inside one suit (its three kinds share `x / 9`) is one family. */
  lemma RunInOneSuit(x: int)
    requires 0 <= x < FIRST_HONOUR && x % 9 <= 6
    ensures RunFamily(x)
  {
    var t := [x, x + 1, x + 2];
    assert t[0] / 9 == t[1] / 9 == t[2] / 9;
    assert Suits(t) == {x / 9};
  }

  // ---------------------------------------------------------------------------------------------
  // Line 59: pairs of 0 to 5, a 6 and a 7

  lemma TradeSevenForSix(m: multiset<int>)
    requires m == multiset{0, 0, 1, 1, 2, 2, 3, 3, 4, 4, 5, 5, 6, 7}
    ensures m - multiset{7} + multiset{6} == multiset{0, 0, 1, 1, 2, 2, 3, 3, 4, 4, 5, 5, 6, 6}
  {
  }

  lemma LowPairsKinds(c: seq<int>)
    requires multiset(c) == multiset{0, 0, 1, 1, 2, 2, 3, 3, 4, 4, 5, 5, 6, 6}
    ensures Distinct(c) == {0, 1, 2, 3, 4, 5, 6}
  {
    forall x ensures x in Distinct(c) <==> x in {0, 1, 2, 3, 4, 5, 6} {
      assert x in c <==> x in multiset(c);
    }
  }

  lemma LowPairsCounts(c: seq<int>)
    requires multiset(c) == multiset{0, 0, 1, 1, 2, 2, 3, 3, 4, 4, 5, 5, 6, 6}
    ensures forall x :: x in c ==> Count(c, x) == 2
  {
    forall x | x in c ensures Count(c, x) == 2 { assert x in multiset(c); }
  }

  lemma LowPairsAccepted(c: seq<int>)
    requires Distinct(c) == {0, 1, 2, 3, 4, 5, 6}
    requires forall x :: x in c ==> Count(c, x) == 2
    ensures RiichiTest(c, false)
  {
    SevenPairsAccepted(c, false);
  }

  /** Pairs of 0 to 5 with a lone 6 and 7, in any order: trading the 7 for a 6 gives seven pairs. */
  lemma SevenPairsWait(h: seq<int>)
    requires multiset(h) == multiset{0, 0, 1, 1, 2, 2, 3, 3, 4, 4, 5, 5, 6, 7}
    ensures CanCallRiichi(h)
  {
    var m := multiset(h);
    assert |h| == |m| == 14;
    assert 7 in m;
    var i :| 0 <= i < |h| && h[i] == 7;
    var c := Candidate(h, 7, 6);
    CandidateTiles(h, 7, 6);
    TradeSevenForSix(m);
    LowPairsKinds(c);
    LowPairsCounts(c);
    LowPairsAccepted(c);
    assert Completes(h, h[i], 6);
    CompletesReady(h, i, 6);
  }

  /** The first example hand of the script is ready. */
  lemma ExampleLine59()
    ensures CanCallRiichi([0, 0, 1, 1, 2, 2, 3, 3, 4, 4, 5, 5, 6, 7])
  {
    SevenPairsWait([0, 0, 1, 1, 2, 2, 3, 3, 4, 4, 5, 5, 6, 7]);
  }

  // ---------------------------------------------------------------------------------------------
  // Lines 62 and 65: the orphan clause

  /** A hand holding every orphan kind but `missing`, and no `missing`, passes the orphan clause. */
  lemma AllOrphansBut(c: seq<int>, missing: int, hadPair: bool)
    requires missing in ORPHAN_SET && missing !in c
    requires forall x :: x in ORPHAN_SET && x != missing ==> x in c
    ensures RiichiTest(c, hadPair)
  {
    assert Distinct(c) * ORPHAN_SET == ORPHAN_SET - {missing};
    OrphanSetSize();
    TwelveOrphansAccepted(c, hadPair);
  }

  /** The candidate traded for `m` holds every orphan kind but `missing`, and no `missing`. */
  lemma OrphansBy(h: seq<int>, removed: int, added: int, missing: int)
    requires removed in h && missing in ORPHAN_SET
    requires var m := multiset(h) - multiset{removed} + multiset{added};
      missing !in m && forall x :: x in ORPHAN_SET && x != missing ==> x in m
    ensures Completes(h, removed, added)
  {
    var c := Candidate(h, removed, added);
    CandidateTiles(h, removed, added);
    forall x | x in ORPHAN_SET && x != missing ensures x in c { assert x in multiset(c); }
    assert missing !in multiset(c);
    AllOrphansBut(c, missing, false);
  }

  lemma TradeOrphanForFive(m: multiset<int>)
    requires m == multiset{0, 8, 9, 17, 18, 26, 27, 28, 29, 30, 31, 32, 33, 5}
    ensures forall x :: x in ORPHAN_SET && x != 0 ==> x in m - multiset{0} + multiset{5}
    ensures 0 !in m - multiset{0} + multiset{5}
  {
  }

  /** The thirteen orphans and a 5, in any order: trading the 0 for a 5 leaves twelve orphan kinds. */
  lemma ThirteenOrphansAndFive(h: seq<int>)
    requires multiset(h) == multiset{0, 8, 9, 17, 18, 26, 27, 28, 29, 30, 31, 32, 33, 5}
    ensures CanCallRiichi(h)
  {
    var m := multiset(h);
    assert |h| == |m| == 14;
    assert 0 in m;
    var i :| 0 <= i < |h| && h[i] == 0;
    TradeOrphanForFive(m);
    OrphansBy(h, 0, 5, 0);
    assert Completes(h, h[i], 5);
    CompletesReady(h, i, 5);
  }

  /** The second example hand of the script is ready. */
  lemma ExampleLine62()
    ensures CanCallRiichi([0, 8, 9, 17, 18, 26, 27, 28, 29, 30, 31, 32, 33, 5])
  {
    ThirteenOrphansAndFive([0, 8, 9, 17, 18, 26, 27, 28, 29, 30, 31, 32, 33, 5]);
  }

  lemma TwelveOrphansKept(m: multiset<int>)
    requires m == multiset{0, 8, 9, 17, 18, 26, 27, 28, 29, 30, 31, 32, 32, 5}
    ensures forall x :: x in ORPHAN_SET && x != 33 ==> x in m
    ensures 33 !in m
  {
  }

  /** Twelve orphan kinds (no 33), a second 32 and a 5, in any order: the hand with its 5 traded
      for a 5 already meets the orphan clause. */
  lemma TwelveOrphansPairAndFive(h: seq<int>)
    requires multiset(h) == multiset{0, 8, 9, 17, 18, 26, 27, 28, 29, 30, 31, 32, 32, 5}
    ensures CanCallRiichi(h)
  {
    var m := multiset(h);
    assert |h| == |m| == 14;
    assert 5 in m;
    var i :| 0 <= i < |h| && h[i] == 5;
    assert m - multiset{5} + multiset{5} == m;
    TwelveOrphansKept(m);
    OrphansBy(h, 5, 5, 33);
    assert Completes(h, h[i], 5);
    CompletesReady(h, i, 5);
  }

  /** The third example hand of the script is ready. */
  lemma ExampleLine65()
    ensures CanCallRiichi([0, 8, 9, 17, 18, 26, 27, 28, 29, 30, 31, 32, 32, 5])
  {
    TwelveOrphansPairAndFive([0, 8, 9, 17, 18, 26, 27, 28, 29, 30, 31, 32, 32, 5]);
  }

  // ---------------------------------------------------------------------------------------------
  // Line 68: runs and a pair after trading a 0 for a 1

  lemma LowRunsValid()
    ensures ValidGroups([Run(0), Run(2), Pair(4), Run(5), Run(6)], false)
  {
    RunInOneSuit(0);
    RunInOneSuit(2);
    RunInOneSuit(5);
    RunInOneSuit(6);
    var gs := [Run(0), Run(2), Pair(4), Run(5), Run(6)];
    assert gs[1..] == [Run(2), Pair(4), Run(5), Run(6)];
    assert gs[2..] == [Pair(4), Run(5), Run(6)];
    assert gs[3..] == [Run(5), Run(6)];
    assert gs[4..] == [Run(6)];
  }

  lemma LowRunsTiles()
    ensures GroupsTiles([Run(0), Run(2), Pair(4), Run(5), Run(6)])
      == multiset{0, 1, 2} + multiset{2, 3, 4} + multiset{4, 4} + multiset{5, 6, 7} + multiset{6, 7, 8}
  {
    var gs := [Run(0), Run(2), Pair(4), Run(5), Run(6)];
    assert gs[1..] == [Run(2), Pair(4), Run(5), Run(6)];
    assert gs[2..] == [Pair(4), Run(5), Run(6)];
    assert gs[3..] == [Run(5), Run(6)];
    assert gs[4..] == [Run(6)];
  }

  lemma TradeZeroForOne(m: multiset<int>)
    requires m == multiset{0, 0, 2, 2, 3, 4, 4, 4, 5, 6, 7, 6, 7, 8}
    ensures m - multiset{0} + multiset{1}
      == multiset{0, 1, 2} + multiset{2, 3, 4} + multiset{4, 4} + multiset{5, 6, 7} + multiset{6, 7, 8}
  {
  }

  /** 0 0 2 2 3 4 4 4 5 6 6 7 7 8, in any order: trading a 0 for a 1 gives 0-1-2, 2-3-4, 4-4,
      5-6-7 and 6-7-8. */
  lemma RunsWaitOnOne(h: seq<int>)
    requires multiset(h) == multiset{0, 0, 2, 2, 3, 4, 4, 4, 5, 6, 7, 6, 7, 8}
    ensures CanCallRiichi(h)
  {
    var m := multiset(h);
    assert |h| == |m| == 14;
    assert 0 in m;
    var i :| 0 <= i < |h| && h[i] == 0;
    TradeZeroForOne(m);
    LowRunsValid();
    LowRunsTiles();
    GroupsStandard([Run(0), Run(2), Pair(4), Run(5), Run(6)], false);
    TenpaiFromShape(h, i, 1);
  }

  /** The fourth example hand of the script is ready. */
  lemma ExampleLine68()
    ensures CanCallRiichi([0, 0, 2, 2, 3, 4, 4, 4, 5, 6, 7, 6, 7, 8])
  {
    RunsWaitOnOne([0, 0, 2, 2, 3, 4, 4, 4, 5, 6, 7, 6, 7, 8]);
  }

  // ---------------------------------------------------------------------------------------------
  // Line 71: four 1-2-3 runs and the 4-4 pair

  lemma FourRunsValid()
    ensures ValidGroups([Run(1), Run(1), Run(1), Run(1), Pair(4)], false)
  {
    RunInOneSuit(1);
    var gs := [Run(1), Run(1), Run(1), Run(1), Pair(4)];
    assert gs[1..] == [Run(1), Run(1), Run(1), Pair(4)];
    assert gs[2..] == [Run(1), Run(1), Pair(4)];
    assert gs[3..] == [Run(1), Pair(4)];
    assert gs[4..] == [Pair(4)];
  }

  lemma FourRunsTiles()
    ensures GroupsTiles([Run(1), Run(1), Run(1), Run(1), Pair(4)])
      == multiset{1, 2, 3} + multiset{1, 2, 3} + multiset{1, 2, 3} + multiset{1, 2, 3} + multiset{4, 4}
  {
    var gs := [Run(1), Run(1), Run(1), Run(1), Pair(4)];
    assert gs[1..] == [Run(1), Run(1), Run(1), Pair(4)];
    assert gs[2..] == [Run(1), Run(1), Pair(4)];
    assert gs[3..] == [Run(1), Pair(4)];
    assert gs[4..] == [Pair(4)];
  }

  lemma FourRunsFlat(m: multiset<int>)
    requires m == multiset{1, 2, 3, 1, 2, 3, 1, 2, 3, 1, 2, 3, 4, 4}
    ensures m - multiset{4} + multiset{4}
      == multiset{1, 2, 3} + multiset{1, 2, 3} + multiset{1, 2, 3} + multiset{1, 2, 3} + multiset{4, 4}
  {
  }

  /** Four 1-2-3 runs and the 4-4 pair, in any order: already complete, so trading a 4 for a 4
      keeps it so. */
  lemma FourRunsAndPair(h: seq<int>)
    requires multiset(h) == multiset{1, 2, 3, 1, 2, 3, 1, 2, 3, 1, 2, 3, 4, 4}
    ensures CanCallRiichi(h)
  {
    var m := multiset(h);
    assert |h| == |m| == 14;
    assert 4 in m;
    var i :| 0 <= i < |h| && h[i] == 4;
    FourRunsFlat(m);
    FourRunsValid();
    FourRunsTiles();
    GroupsStandard([Run(1), Run(1), Run(1), Run(1), Pair(4)], false);
    TenpaiFromShape(h, i, 4);
  }

  /** The fifth example hand of the script is ready. */
  lemma ExampleLine71()
    ensures CanCallRiichi([1, 2, 3, 1, 2, 3, 1, 2, 3, 1, 2, 3, 4, 4])
  {
    FourRunsAndPair([1, 2, 3, 1, 2, 3, 1, 2, 3, 1, 2, 3, 4, 4]);
  }

  // ---------------------------------------------------------------------------------------------
  // Four triplets and a drawn tile that pairs the single

  /** 1 1 1 2 2 2 3 3 3 4 4 4 5 5 is accepted by the head-first search: four triplet peels, then
      the pair 5-5 and the empty rest. */
  lemma TripletsAndPairAccepted()
    ensures RiichiTest([1, 1, 1, 2, 2, 2, 3, 3, 3, 4, 4, 4, 5, 5], false)
  {
    var h := [1, 1, 1, 2, 2, 2, 3, 3, 3, 4, 4, 4, 5, 5];
    assert h[12..][2..] == [];
    PairStep(h[12..], false);
    assert h[9..][3..] == h[12..];
    TripletStep(h[9..], false);
    assert h[6..][3..] == h[9..];
    TripletStep(h[6..], false);
    assert h[3..][3..] == h[6..];
    TripletStep(h[3..], false);
    TripletStep(h, false);
  }

  lemma TripletsValid()
    ensures ValidGroups([Triplet(1), Triplet(2), Triplet(3), Triplet(4), Pair(5)], false)
  {
    var gs := [Triplet(1), Triplet(2), Triplet(3), Triplet(4), Pair(5)];
    assert gs[1..] == [Triplet(2), Triplet(3), Triplet(4), Pair(5)];
    assert gs[2..] == [Triplet(3), Triplet(4), Pair(5)];
    assert gs[3..] == [Triplet(4), Pair(5)];
    assert gs[4..] == [Pair(5)];
  }

  lemma TripletsTiles()
    ensures GroupsTiles([Triplet(1), Triplet(2), Triplet(3), Triplet(4), Pair(5)])
      == multiset{1, 1, 1} + multiset{2, 2, 2} + multiset{3, 3, 3} + multiset{4, 4, 4} + multiset{5, 5}
  {
    var gs := [Triplet(1), Triplet(2), Triplet(3), Triplet(4), Pair(5)];
    assert gs[1..] == [Triplet(2), Triplet(3), Triplet(4), Pair(5)];
    assert gs[2..] == [Triplet(3), Triplet(4), Pair(5)];
    assert gs[3..] == [Triplet(4), Pair(5)];
    assert gs[4..] == [Pair(5)];
  }

  lemma TradeFiveForFive(m: multiset<int>)
    requires m == multiset{1, 1, 1, 2, 2, 2, 3, 3, 3, 4, 4, 4, 5} + multiset{5}
    ensures m - multiset{5} + multiset{5}
      == multiset{1, 1, 1} + multiset{2, 2, 2} + multiset{3, 3, 3} + multiset{4, 4, 4} + multiset{5, 5}
  {
  }

  /** Triplets of 1 to 4 and a single 5, in any order, with a 5 drawn: the hand is already four
      triplets and the pair 5-5, so trading the drawn 5 for a 5 keeps it complete. */
  lemma TripletsWaitOnFive(h: seq<int>)
    requires multiset(h) == multiset{1, 1, 1, 2, 2, 2, 3, 3, 3, 4, 4, 4, 5}
    ensures CanCallRiichi(h + [5])
  {
    var hand := h + [5];
    assert multiset(hand) == multiset(h) + multiset{5};
    assert |hand| == |multiset(hand)| == 14;
    assert hand[13] == 5;
    TradeFiveForFive(multiset(hand));
    TripletsValid();
    TripletsTiles();
    GroupsStandard([Triplet(1), Triplet(2), Triplet(3), Triplet(4), Pair(5)], false);
    TenpaiFromShape(hand, 13, 5);
  }

  // ---------------------------------------------------------------------------------------------
  // The orphan clause at its boundary

  /** A sorted hand holding all thirteen orphan kinds, a single 0 and no 1 is rejected: it has too
      many kinds for seven pairs, too many orphan kinds for the orphan clause, and its head 0 starts
      no pair, triplet or run. The thirteen orphans with the duplicate above 0, such as
      0 8 9 17 18 26 27 28 29 30 31 32 33 33, are therefore not accepted as complete. */
  lemma ThirteenOrphanKindsRejected(h: seq<int>, hadPair: bool)
    requires Sorted(h) && |h| == 14 && h[0] == 0 && Count(h, 0) == 1 && 1 !in h
    requires ORPHAN_SET <= Distinct(h)
    ensures !RiichiTest(h, hadPair)
  {
    NoSpecialClause(h);
    assert h == [h[0], h[1]] + h[2..];
    assert h[1] != 0;
  }

  /** Thirteen orphan kinds in fourteen tiles meet neither seven pairs nor the orphan clause. */
  lemma NoSpecialClause(h: seq<int>)
    requires |h| == 14 && ORPHAN_SET <= Distinct(h)
    ensures !SevenPairs(h) && !Orphans(h)
  {
    SubsetSize(ORPHAN_SET, Distinct(h));
    OrphanSetSize();
    SevenPairsMeaning(h);
    AllThirteenOrphansMissClause(h);
  }

  /** The same kinds with the duplicate on the 0 are accepted: the pair 0-0 is peeled and the rest
      meets the orphan clause. */
  lemma ThirteenOrphansPairedOnZero(h: seq<int>)
    requires |h| >= 2 && h[0] == 0 && h[1] == 0 && 0 !in h[2..]
    requires forall x :: x in ORPHAN_SET && x != 0 ==> x in h[2..]
    ensures RiichiTest(h, false)
  {
    AllOrphansBut(h[2..], 0, true);
    PairStep(h, false);
  }
}
