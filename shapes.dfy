/** Meld legality: the family test and the triplet (pon) and run (chii) claims on a discard. */
module Shapes {
  import opened Tiles

  /** The suits (`x // 9`, floor division) of those arguments that are below the first honour. */
  function Suits(tiles: seq<int>): set<int>
  {
    set i | 0 <= i < |tiles| && tiles[i] < FIRST_HONOUR :: tiles[i] / 9
  }

  /** `tiles_in_the_same_family`: the non-honour arguments name exactly one suit.
      Honours are dropped before the comparison, so honours never break a family. */
  predicate SameFamily(tiles: seq<int>)
  {
    |Suits(tiles)| == 1
  }

  lemma SubsetSize(a: set<int>, b: set<int>)
    requires a <= b
    ensures |a| <= |b|
  {
    assert b == a + (b - a);
  }

  /** The family test in plain words: some argument is suited, and all suited arguments share a suit. */
  lemma SameFamilyMeaning(tiles: seq<int>)
    ensures SameFamily(tiles) <==>
      (exists i :: 0 <= i < |tiles| && tiles[i] < FIRST_HONOUR) &&
      (forall i, j :: 0 <= i < |tiles| && 0 <= j < |tiles| && tiles[i] < FIRST_HONOUR && tiles[j] < FIRST_HONOUR
         ==> tiles[i] / 9 == tiles[j] / 9)
  {
    var S := Suits(tiles);
    if exists i :: 0 <= i < |tiles| && tiles[i] < FIRST_HONOUR {
      var i :| 0 <= i < |tiles| && tiles[i] < FIRST_HONOUR;
      if forall i, j :: 0 <= i < |tiles| && 0 <= j < |tiles| && tiles[i] < FIRST_HONOUR && tiles[j] < FIRST_HONOUR
           ==> tiles[i] / 9 == tiles[j] / 9 {
        assert S == {tiles[i] / 9};
      } else {
        var i, j :| 0 <= i < |tiles| && 0 <= j < |tiles| && tiles[i] < FIRST_HONOUR && tiles[j] < FIRST_HONOUR
          && tiles[i] / 9 != tiles[j] / 9;
        assert {tiles[i] / 9, tiles[j] / 9} <= S;
        assert |{tiles[i] / 9, tiles[j] / 9}| == 2;
        SubsetSize({tiles[i] / 9, tiles[j] / 9}, S);
      }
    } else {
      assert S == {};
    }
  }

  /** The honour quirk: three honours are no family, but a run running into the honours is one,
      and -1 never shares 0's family (floor division puts it in suit -1). */
  lemma FamilyQuirks()
    ensures !SameFamily([27, 28, 29])
    ensures SameFamily([25, 26, 27])
    ensures SameFamily([26, 27, 28])
    ensures !SameFamily([-1, 0, 1])
  {
    assert Suits([27, 28, 29]) == {};
    assert Suits([25, 26, 27]) == {2} by {
      assert [25, 26, 27][0] / 9 == 2;
    }
    assert Suits([26, 27, 28]) == {2} by {
      assert [26, 27, 28][0] / 9 == 2;
    }
    assert Suits([-1, 0, 1]) == {-1, 0} by {
      assert [-1, 0, 1][0] / 9 == -1;
      assert [-1, 0, 1][1] / 9 == 0;
    }
  }

  /** `can_call_pon`: the hand holds at least two copies of the discarded kind. */
  predicate CanCallPon(hand: seq<int>, discarded: int)
  {
    Count(hand, discarded) >= 2
  }

  /** A pon is legal exactly when two distinct positions of the hand hold the discarded kind. */
  lemma {:induction false} PonMeaning(hand: seq<int>, d: int)
    ensures CanCallPon(hand, d) <==> exists i, j :: 0 <= i < j < |hand| && hand[i] == d && hand[j] == d
  {
    if hand != [] {
      var tail := hand[1..];
      assert hand == [hand[0]] + tail;
      PonMeaning(tail, d);
      assert Count(hand, d) == Count(tail, d) + (if hand[0] == d then 1 else 0);
      if exists i, j :: 0 <= i < j < |hand| && hand[i] == d && hand[j] == d {
        var i, j :| 0 <= i < j < |hand| && hand[i] == d && hand[j] == d;
        if i > 0 {
          assert tail[i - 1] == d && tail[j - 1] == d;
        } else {
          assert tail[j - 1] == d;
          assert d in multiset(tail);
        }
      }
      if CanCallPon(hand, d) && !CanCallPon(tail, d) {
        assert hand[0] == d && d in multiset(tail);
        var j :| 0 <= j < |tail| && tail[j] == d;
        assert hand[j + 1] == d;
      }
      if CanCallPon(tail, d) {
        var i, j :| 0 <= i < j < |tail| && tail[i] == d && tail[j] == d;
        assert hand[i + 1] == d && hand[j + 1] == d;
      }
    }
  }

  /** The three kinds of the run in which the discard `d` stands at position `k` (1, 2 or 3). */
  function RunTiles(d: int, k: int): seq<int>
  {
    [d - k + 1, d - k + 2, d - k + 3]
  }

  /** Run position `k` is callable: the run's two other kinds are in the hand and the run is one family. */
  predicate RunCallable(hand: seq<int>, d: int, k: int)
  {
    && k in {1, 2, 3}
    && (forall j :: 0 <= j < 3 && j != k - 1 ==> RunTiles(d, k)[j] in hand)
    && SameFamily(RunTiles(d, k))
  }

  /** A callable run leaves the hand to supply its two kinds other than the discard. */
  lemma RunOthersInHand(hand: seq<int>, d: int, k: int)
    requires RunCallable(hand, d, k)
    ensures d in RunTiles(d, k) && multiset(RunTiles(d, k)) - multiset{d} <= multiset(hand)
  {
    var run := RunTiles(d, k);
    var i, j := if k == 1 then 1 else 0, if k == 3 then 1 else 2;
    assert run[k - 1] == d && run[i] in hand && run[j] in hand;
    TwoOthersInHand(hand, run, d, run[i], run[j]);
  }

  lemma TwoOthersInHand(hand: seq<int>, run: seq<int>, d: int, x: int, y: int)
    requires multiset(run) == multiset{d, x, y} && x in hand && y in hand && x != y
    ensures multiset(run) - multiset{d} <= multiset(hand)
  {
    assert multiset(run) - multiset{d} == multiset{x, y};
  }

  /** `can_call_chii`: the run positions (1, 2, 3) at which the discard can complete a run,
      in ascending order; several may hold at once. */
  function CanCallChii(hand: seq<int>, d: int): (r: seq<int>)
    ensures forall i, j :: 0 <= i < j < |r| ==> r[i] < r[j]
    ensures forall k :: k in r <==> RunCallable(hand, d, k)
  {
    assert forall k :: RunCallable(hand, d, k) <==>
        || (k == 1 && d + 1 in hand && d + 2 in hand && SameFamily([d, d + 1, d + 2]))
        || (k == 2 && d - 1 in hand && d + 1 in hand && SameFamily([d - 1, d, d + 1]))
        || (k == 3 && d - 2 in hand && d - 1 in hand && SameFamily([d - 2, d - 1, d])) by {
      forall k ensures RunCallable(hand, d, k) <==>
        || (k == 1 && d + 1 in hand && d + 2 in hand && SameFamily([d, d + 1, d + 2]))
        || (k == 2 && d - 1 in hand && d + 1 in hand && SameFamily([d - 1, d, d + 1]))
        || (k == 3 && d - 2 in hand && d - 1 in hand && SameFamily([d - 2, d - 1, d]))
      {
        assert RunTiles(d, 1) == [d, d + 1, d + 2];
        assert RunTiles(d, 2) == [d - 1, d, d + 1];
        assert RunTiles(d, 3) == [d - 2, d - 1, d];
        if k == 1 { assert RunTiles(d, k)[1] == d + 1 && RunTiles(d, k)[2] == d + 2; }
        if k == 2 { assert RunTiles(d, k)[0] == d - 1 && RunTiles(d, k)[2] == d + 1; }
        if k == 3 { assert RunTiles(d, k)[0] == d - 2 && RunTiles(d, k)[1] == d - 1; }
      }
    }
    (if d + 1 in hand && d + 2 in hand && SameFamily([d, d + 1, d + 2]) then [1] else []) +
    (if d - 1 in hand && d + 1 in hand && SameFamily([d - 1, d, d + 1]) then [2] else []) +
    (if d - 2 in hand && d - 1 in hand && SameFamily([d - 2, d - 1, d]) then [3] else [])
  }

  /** A discarded 4 against 2, 3, 5 and 6 completes a run at every position; an East (27) against
      the 8 and 9 of the third suit (25, 26) is reported as a run, through the honour quirk. */
  lemma ChiiExamples()
    ensures CanCallChii([2, 3, 5, 6], 4) == [1, 2, 3]
    ensures CanCallChii([25, 26], 27) == [3]
    ensures CanCallChii([27, 28], 29) == []
  {
    assert Suits([4, 5, 6]) == {0} by { assert [4, 5, 6][0] / 9 == 0; }
    assert Suits([3, 4, 5]) == {0} by { assert [3, 4, 5][0] / 9 == 0; }
    assert Suits([2, 3, 4]) == {0} by { assert [2, 3, 4][0] / 9 == 0; }
    FamilyQuirks();
    assert Suits([27, 28, 29]) == {};
  }
}
