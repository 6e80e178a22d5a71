/** What `_riichi_test` decides, stated without its search order: a hand is a standard shape when
    its tiles split into triplets, same-family runs and at most one pair. The head-first search
    finds every such split (completeness), and everything it accepts splits into groups, seven
    pairs or the orphan clause (soundness). */
module HandShapes {
  import opened Tiles
  import opened Shapes
  import opened Riichi

  /** One group peeled off a hand, named by its lowest kind. */
  datatype Group = Pair(x: int) | Triplet(x: int) | Run(x: int)

  function GroupTiles(g: Group): multiset<int>
  {
    match g
    case Pair(x) => multiset{x, x}
    case Triplet(x) => multiset{x, x, x}
    case Run(x) => multiset{x, x + 1, x + 2}
  }

  /** A group is named by its lowest tile. */
  lemma GroupLowest(g: Group, y: int)
    requires y in GroupTiles(g)
    ensures g.x <= y
  {
  }

  /** The group can be taken from `m`: its tiles are there, a pair only while none was taken,
      and a run only within one family. */
  predicate Fits(g: Group, m: multiset<int>, hadPair: bool)
  {
    && GroupTiles(g) <= m
    && (g.Pair? ==> !hadPair)
    && (g.Run? ==> RunFamily(g.x))
  }

  /** The tiles split into groups, taken in any order, with at most one pair. */
  ghost predicate StandardShape(m: multiset<int>, hadPair: bool)
    decreases |m|
  {
    m == multiset{} ||
    exists g :: Fits(g, m, hadPair) && StandardShape(m - GroupTiles(g), hadPair || g.Pair?)
  }

  /** Some listing of the tiles meets the seven-pairs or the orphan clause. Both clauses depend
      only on the tiles (`SevenPairsMeaning`), except that the bare orphan list must be listed in
      its own order. */
  ghost predicate SpecialShape(m: multiset<int>)
  {
    exists h :: multiset(h) == m && (SevenPairs(h) || Orphans(h))
  }

  /** Standard shapes, extended by the two special clauses wherever the search can meet them. */
  ghost predicate CompleteShape(m: multiset<int>, hadPair: bool)
    decreases |m|
  {
    m == multiset{} || SpecialShape(m) ||
    exists g :: Fits(g, m, hadPair) && CompleteShape(m - GroupTiles(g), hadPair || g.Pair?)
  }

  lemma PairTiles(hand: seq<int>)
    requires |hand| >= 2 && hand[0] == hand[1]
    ensures multiset(hand[2..]) == multiset(hand) - GroupTiles(Pair(hand[0]))
  {
    assert hand == [hand[0], hand[1]] + hand[2..];
  }

  lemma TripletTiles(hand: seq<int>)
    requires |hand| >= 3 && hand[0] == hand[1] == hand[2]
    ensures multiset(hand[3..]) == multiset(hand) - GroupTiles(Triplet(hand[0]))
  {
    assert hand == [hand[0], hand[1], hand[2]] + hand[3..];
  }

  /** Soundness: whatever the search accepts is made of groups (at most one pair), seven pairs
      or the orphan clause. */
  lemma {:induction false} RiichiSound(hand: seq<int>, hadPair: bool)
    requires RiichiTest(hand, hadPair)
    ensures CompleteShape(multiset(hand), hadPair)
    decreases |hand|
  {
    var m := multiset(hand);
    if |hand| == 0 {
    } else if SevenPairs(hand) || Orphans(hand) {
      assert SpecialShape(m);
    } else {
      RiichiCases(hand, hadPair);
      if hand[0] == hand[1] && !hadPair && RiichiTest(hand[2..], true) {
        RiichiSound(hand[2..], true);
        PairSound(hand, hadPair);
      } else if |hand| >= 3 && hand[0] == hand[1] && hand[1] == hand[2] && RiichiTest(hand[3..], hadPair) {
        RiichiSound(hand[3..], hadPair);
        TripletSound(hand, hadPair);
      } else {
        RiichiSound(PeelRun(hand), hadPair);
        RunSound(hand, hadPair);
      }
    }
  }

  lemma PairSound(hand: seq<int>, hadPair: bool)
    requires |hand| >= 2 && hand[0] == hand[1] && !hadPair && CompleteShape(multiset(hand[2..]), true)
    ensures CompleteShape(multiset(hand), hadPair)
  {
    PairTiles(hand);
    GroupSound(Pair(hand[0]), multiset(hand), hadPair);
  }

  lemma TripletSound(hand: seq<int>, hadPair: bool)
    requires |hand| >= 3 && hand[0] == hand[1] == hand[2] && CompleteShape(multiset(hand[3..]), hadPair)
    ensures CompleteShape(multiset(hand), hadPair)
  {
    TripletTiles(hand);
    GroupSound(Triplet(hand[0]), multiset(hand), hadPair);
  }

  lemma RunSound(hand: seq<int>, hadPair: bool)
    requires hand != [] && hand[0] + 1 in hand && hand[0] + 2 in hand
    requires RunFamily(hand[0])
    requires CompleteShape(multiset(PeelRun(hand)), hadPair)
    ensures CompleteShape(multiset(hand), hadPair)
  {
    RunPresent(hand);
    var g := Run(hand[0]);
    GroupSound(g, multiset(hand), hadPair);
  }

  /** The run at the head is in the hand, and peeling it leaves the tiles of `PeelRun`. */
  lemma RunPresent(hand: seq<int>)
    requires hand != [] && hand[0] + 1 in hand && hand[0] + 2 in hand
    ensures GroupTiles(Run(hand[0])) <= multiset(hand)
    ensures multiset(hand) - GroupTiles(Run(hand[0])) == multiset(PeelRun(hand))
  {
    var x := hand[0];
    assert GroupTiles(Run(x)) == multiset{x, x + 1, x + 2};
    var m := multiset(hand);
    assert x in m && x + 1 in m && x + 2 in m;
    forall y ensures multiset{x, x + 1, x + 2}[y] <= m[y] {
      if y == x || y == x + 1 || y == x + 2 { assert y in m; }
    }
  }

  /** The ways an accepted hand with no special clause can have been accepted. */
  lemma RiichiCases(hand: seq<int>, hadPair: bool)
    requires RiichiTest(hand, hadPair) && hand != [] && !SevenPairs(hand) && !Orphans(hand)
    ensures |hand| >= 2
    ensures || (hand[0] == hand[1] && !hadPair && RiichiTest(hand[2..], true))
            || (|hand| >= 3 && hand[0] == hand[1] && hand[1] == hand[2] && RiichiTest(hand[3..], hadPair))
            || (hand[0] + 1 in hand && hand[0] + 2 in hand && RunFamily(hand[0])
                && RiichiTest(PeelRun(hand), hadPair))
  {
  }

  lemma GroupSound(g: Group, m: multiset<int>, hadPair: bool)
    requires Fits(g, m, hadPair) && CompleteShape(m - GroupTiles(g), hadPair || g.Pair?)
    ensures CompleteShape(m, hadPair)
  {
  }

  /** Every standard shape is a complete shape. */
  lemma {:induction false} StandardIsComplete(m: multiset<int>, hadPair: bool)
    requires StandardShape(m, hadPair)
    ensures CompleteShape(m, hadPair)
    decreases |m|
  {
    if m != multiset{} {
      var g :| Fits(g, m, hadPair) && StandardShape(m - GroupTiles(g), hadPair || g.Pair?);
      StandardIsComplete(m - GroupTiles(g), hadPair || g.Pair?);
    }
  }

  lemma {:induction false} CountBound(s: seq<int>, x: int)
    ensures Count(s, x) <= |s|
  {
    if s != [] {
      assert s == [s[0]] + s[1..];
      CountBound(s[1..], x);
    }
  }

  /** In a sorted list whose head occurs more than `k` times, position `k` still holds the head. */
  lemma SortedHeadRepeats(h: seq<int>, k: nat)
    requires Sorted(h) && h != [] && Count(h, h[0]) > k
    ensures k < |h| && h[k] == h[0]
  {
    CountBound(h, h[0]);
    CountBound(h[..k], h[0]);
    assert h == h[..k] + h[k..];
    assert h[0] in multiset(h[k..]);
    var j :| 0 <= j < |h[k..]| && h[k..][j] == h[0];
    assert h[k + j] == h[0];
  }

  lemma SortedDrop(h: seq<int>, k: nat)
    requires Sorted(h) && k <= |h|
    ensures Sorted(h[k..])
  {
  }

  /** Multiset bookkeeping for taking two groups in the other order. */
  lemma Swap(m: multiset<int>, a: multiset<int>, b: multiset<int>)
    requires a <= m && b <= m - a
    ensures b <= m && a <= m - b && (m - a) - b == (m - b) - a
  {
  }

  /** The exchange argument: in a standard shape the lowest tile can be covered by the first group
      taken, and that group starts at it (a run holding the lowest tile must begin there). */
  lemma {:induction false} LowestGroupFirst(m: multiset<int>, hadPair: bool, lo: int)
    requires StandardShape(m, hadPair) && lo in m && forall y :: y in m ==> lo <= y
    ensures exists g: Group :: g.x == lo && Fits(g, m, hadPair) && StandardShape(m - GroupTiles(g), hadPair || g.Pair?)
    decreases |m|
  {
    var g :| Fits(g, m, hadPair) && StandardShape(m - GroupTiles(g), hadPair || g.Pair?);
    var t := GroupTiles(g);
    if lo in t {
      GroupLowest(g, lo);
      assert g.x in m;
    } else {
      var m' := m - t;
      var hp' := hadPair || g.Pair?;
      assert lo in m';
      LowestGroupFirst(m', hp', lo);
      var g': Group :| g'.x == lo && Fits(g', m', hp') && StandardShape(m' - GroupTiles(g'), hp' || g'.Pair?);
      var t' := GroupTiles(g');
      Swap(m, t, t');
      var hp2 := hadPair || g'.Pair?;
      assert Fits(g', m, hadPair);
      var n := m - t';
      assert Fits(g, n, hp2);
      assert n - t == m' - t';
      assert (hp2 || g.Pair?) == (hp' || g'.Pair?);
      assert StandardShape(n, hp2);
    }
  }

  lemma PairStep(hand: seq<int>, hadPair: bool)
    requires |hand| >= 2 && hand[0] == hand[1] && !hadPair && RiichiTest(hand[2..], true)
    ensures RiichiTest(hand, hadPair)
  {
  }

  lemma TripletStep(hand: seq<int>, hadPair: bool)
    requires |hand| >= 3 && hand[0] == hand[1] == hand[2] && RiichiTest(hand[3..], hadPair)
    ensures RiichiTest(hand, hadPair)
  {
  }

  lemma RunStep(hand: seq<int>, hadPair: bool)
    requires hand != [] && hand[0] + 1 in hand && hand[0] + 2 in hand
    requires RunFamily(hand[0]) && RiichiTest(PeelRun(hand), hadPair)
    ensures RiichiTest(hand, hadPair)
  {
  }

  /** Completeness: the head-first search accepts every sorted hand that is a standard shape,
      so the order in which it tries pair, triplet and run does not lose any split. */
  lemma {:induction false} RiichiComplete(hand: seq<int>, hadPair: bool)
    requires Sorted(hand) && StandardShape(multiset(hand), hadPair)
    ensures RiichiTest(hand, hadPair)
    decreases |hand|, 1
  {
    if hand != [] {
      var m := multiset(hand);
      SortedTail(hand);
      LowestGroupFirst(m, hadPair, hand[0]);
      var g: Group :| g.x == hand[0] && Fits(g, m, hadPair) && StandardShape(m - GroupTiles(g), hadPair || g.Pair?);
      match g
      case Pair(_) => CompletePair(hand, hadPair);
      case Triplet(_) => CompleteTriplet(hand, hadPair);
      case Run(_) => CompleteRun(hand, hadPair);
    }
  }

  lemma {:induction false} CompletePair(hand: seq<int>, hadPair: bool)
    requires Sorted(hand) && hand != [] && Fits(Pair(hand[0]), multiset(hand), hadPair)
    requires StandardShape(multiset(hand) - GroupTiles(Pair(hand[0])), true)
    ensures RiichiTest(hand, hadPair)
    decreases |hand|, 0
  {
    SortedHeadRepeats(hand, 1);
    PairTiles(hand);
    SortedDrop(hand, 2);
    RiichiComplete(hand[2..], true);
    PairStep(hand, hadPair);
  }

  lemma {:induction false} CompleteTriplet(hand: seq<int>, hadPair: bool)
    requires Sorted(hand) && hand != [] && Fits(Triplet(hand[0]), multiset(hand), hadPair)
    requires StandardShape(multiset(hand) - GroupTiles(Triplet(hand[0])), hadPair)
    ensures RiichiTest(hand, hadPair)
    decreases |hand|, 0
  {
    SortedHeadRepeats(hand, 1);
    SortedHeadRepeats(hand, 2);
    TripletTiles(hand);
    SortedDrop(hand, 3);
    RiichiComplete(hand[3..], hadPair);
    TripletStep(hand, hadPair);
  }

  lemma {:induction false} CompleteRun(hand: seq<int>, hadPair: bool)
    requires Sorted(hand) && hand != [] && Fits(Run(hand[0]), multiset(hand), hadPair)
    requires StandardShape(multiset(hand) - GroupTiles(Run(hand[0])), hadPair)
    ensures RiichiTest(hand, hadPair)
    decreases |hand|, 0
  {
    RunFits(hand, hadPair);
    RunPresent(hand);
    RiichiComplete(PeelRun(hand), hadPair);
    RunStep(hand, hadPair);
  }

  lemma RunFits(hand: seq<int>, hadPair: bool)
    requires hand != [] && Fits(Run(hand[0]), multiset(hand), hadPair)
    ensures hand[0] + 1 in hand && hand[0] + 2 in hand && RunFamily(hand[0])
  {
    var x := hand[0];
    var m := multiset(hand);
    assert GroupTiles(Run(x)) == multiset{x, x + 1, x + 2};
    assert x + 1 in m && x + 2 in m;
  }

  /** A 14-tile hand that becomes a standard shape when one of its tiles is traded for some kind
      is declared ready by `can_call_riichi`. */
  lemma TenpaiFromShape(hand: seq<int>, i: int, a: int)
    requires |hand| == 14 && 0 <= i < |hand| && IsKind(a)
    requires StandardShape(multiset(hand) - multiset{hand[i]} + multiset{a}, false)
    ensures CanCallRiichi(hand)
  {
    CandidateTiles(hand, hand[i], a);
    RiichiComplete(Candidate(hand, hand[i], a), false);
    assert Completes(hand, hand[i], a);
    CompletesReady(hand, i, a);
  }

  /** Conversely, a hand declared ready has 14 tiles, one of which traded for some kind gives a
      complete shape. */
  lemma TenpaiShape(hand: seq<int>)
    requires CanCallRiichi(hand)
    ensures |hand| == 14
    ensures exists i, a ::
      (0 <= i < |hand| && IsKind(a) && CompleteShape(multiset(hand) - multiset{hand[i]} + multiset{a}, false))
  {
    CanCallRiichiMeaning(hand);
    var i, a :| 0 <= i < |hand| && 0 <= a < KINDS && Completes(hand, hand[i], a);
    CandidateTiles(hand, hand[i], a);
    RiichiSound(Candidate(hand, hand[i], a), false);
  }

  /** The tiles of a list of groups. */
  function GroupsTiles(gs: seq<Group>): multiset<int>
  {
    if gs == [] then multiset{} else GroupTiles(gs[0]) + GroupsTiles(gs[1..])
  }

  /** Every run in the list is one family, and with the pair already taken (if any) there is at
      most one pair. */
  predicate ValidGroups(gs: seq<Group>, hadPair: bool)
  {
    gs == [] ||
    ((gs[0].Pair? ==> !hadPair) && (gs[0].Run? ==> RunFamily(gs[0].x)) && ValidGroups(gs[1..], hadPair || gs[0].Pair?))
  }

  /** Any list of valid groups makes a standard shape. */
  lemma {:induction false} GroupsStandard(gs: seq<Group>, hadPair: bool)
    requires ValidGroups(gs, hadPair)
    ensures StandardShape(GroupsTiles(gs), hadPair)
  {
    if gs != [] {
      var g, m := gs[0], GroupsTiles(gs);
      GroupsStandard(gs[1..], hadPair || g.Pair?);
      assert m - GroupTiles(g) == GroupsTiles(gs[1..]);
      assert Fits(g, m, hadPair);
    }
  }
}
