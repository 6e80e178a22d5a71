/** The replay snapshot (`GameState`), its transitions, and the seat-rotated view it hands to
    the encoder. Every `make_*` of the source deep-copies the snapshot and edits the copy, so a
    transition is a function from the old value to a new one and the predecessor never changes. */
module Game {
  import opened Wrappers
  import opened Tiles
  import opened Shapes
  import opened Riichi
  import opened Encoding

  type Seat = p: int | 0 <= p < 4

  /** `last_action`: `('discard', p, t)`, `('riichi', p)` or `('call', p, tiles)`. */
  datatype Action =
    | Discarded(player: Seat, tile: int)
    | Declared(player: Seat)
    | Called(player: Seat, tiles: seq<int>)

  /** `n` copies short of four (none once four are there). */
  function Missing(n: nat): nat
  {
    if n < 4 then 4 - n else 0
  }

  /** Seat `q` comes before seat `p` in the stable ascending sort of the scores:
      a lower score, or the same score and a lower seat. */
  predicate Before(scores: seq<int>, q: int, p: int)
    requires |scores| == 4 && 0 <= q < 4 && 0 <= p < 4
  {
    scores[q] < scores[p] || (scores[q] == scores[p] && q < p)
  }

  /** Every earlier seat of `order` comes before every later one. */
  predicate Ordered(scores: seq<int>, order: seq<Seat>)
    requires |scores| == 4
  {
    forall i, j :: 0 <= i < j < |order| ==> Before(scores, order[i], order[j])
  }

  /** One step of a stable insertion sort keyed on the score: `q` goes after every seat whose
      score is not greater. */
  function InsertSeat(scores: seq<int>, q: Seat, order: seq<Seat>): seq<Seat>
    requires |scores| == 4
  {
    if order == [] || scores[q] < scores[order[0]] then [q] + order
    else [order[0]] + InsertSeat(scores, q, order[1..])
  }

  /** Seats `0 .. n - 1` in the order of the stable sort `sorted(enumerate(scores), key=score)`. */
  function StableOrder(scores: seq<int>, n: nat): seq<Seat>
    requires |scores| == 4 && n <= 4
  {
    if n == 0 then [] else InsertSeat(scores, n - 1, StableOrder(scores, n - 1))
  }

  lemma {:induction false} InsertSeatOrdered(scores: seq<int>, q: Seat, order: seq<Seat>)
    requires |scores| == 4 && Ordered(scores, order)
    requires forall i :: 0 <= i < |order| ==> order[i] < q
    ensures Ordered(scores, InsertSeat(scores, q, order))
    ensures |InsertSeat(scores, q, order)| == |order| + 1
    ensures forall x :: x in InsertSeat(scores, q, order) <==> x in order || x == q
  {
    if order == [] || scores[q] < scores[order[0]] {
      forall j | 0 <= j < |order| ensures Before(scores, q, order[j]) {
        if j > 0 { assert Before(scores, order[0], order[j]); }
      }
    } else {
      var tail := order[1..];
      var rest := InsertSeat(scores, q, tail);
      InsertSeatOrdered(scores, q, tail);
      assert order == [order[0]] + tail;
      assert Before(scores, order[0], q);
      forall j | 0 <= j < |rest| ensures Before(scores, order[0], rest[j]) {
        assert rest[j] in rest;
        if rest[j] != q {
          assert rest[j] in tail;
          var k :| 0 <= k < |tail| && tail[k] == rest[j];
          assert Before(scores, order[0], order[k + 1]);
        }
      }
    }
  }

  /** The stable order holds each of the first `n` seats once, strictly in `Before` order. */
  lemma {:induction false} StableOrderSpec(scores: seq<int>, n: nat)
    requires |scores| == 4 && n <= 4
    ensures |StableOrder(scores, n)| == n
    ensures Ordered(scores, StableOrder(scores, n))
    ensures forall q :: q in StableOrder(scores, n) <==> 0 <= q < n
  {
    if n > 0 {
      var order := StableOrder(scores, n - 1);
      StableOrderSpec(scores, n - 1);
      forall i | 0 <= i < |order| ensures order[i] < n - 1 { assert order[i] in order; }
      InsertSeatOrdered(scores, n - 1, order);
    }
  }

  /** Position of `x` in `s` (its first occurrence). */
  function IndexOf(s: seq<Seat>, x: Seat): (i: int)
    requires x in s
    ensures 0 <= i < |s| && s[i] == x && x !in s[..i]
  {
    if s[0] == x then 0 else
      var i := 1 + IndexOf(s[1..], x);
      assert s[..i] == [s[0]] + s[1..][..i - 1];
      i
  }

  /** `_get_player_rank`: the position of `p` in the stable ascending sort of the scores. */
  function RankOf(scores: seq<int>, p: Seat): int
    requires |scores| == 4
  {
    StableOrderSpec(scores, 4);
    IndexOf(StableOrder(scores, 4), p)
  }

  /** Ranks are the seats' places: 0 to 3, a seat ranks below every seat that sorts after it
      (a higher score, or the same score and a higher seat), and no two seats share a rank. */
  lemma RankOrder(scores: seq<int>, p: Seat, q: Seat)
    requires |scores| == 4
    ensures 0 <= RankOf(scores, p) < 4
    ensures Before(scores, q, p) ==> RankOf(scores, q) < RankOf(scores, p)
    ensures p != q ==> RankOf(scores, p) != RankOf(scores, q)
  {
    StableOrderSpec(scores, 4);
    var order := StableOrder(scores, 4);
    var i, j := RankOf(scores, p), RankOf(scores, q);
  }

  /** The rank counts the seats that sort before: it is 0 for the lowest score and 3 for the
      highest, ties going to the lower seat. */
  lemma RankCounts(scores: seq<int>, p: Seat)
    requires |scores| == 4
    ensures RankOf(scores, p) == |set q: Seat | Before(scores, q, p)|
  {
    StableOrderSpec(scores, 4);
    var order := StableOrder(scores, 4);
    var i := RankOf(scores, p);
    var below := set q: Seat | Before(scores, q, p);
    assert below == set j | 0 <= j < i :: order[j] by {
      forall q: Seat | Before(scores, q, p) ensures q in set j | 0 <= j < i :: order[j] {
        RankOrder(scores, p, q);
        assert q in order;
        var k := IndexOf(order, q);
        assert k == RankOf(scores, q);
      }
      forall j | 0 <= j < i ensures Before(scores, order[j], p) { }
    }
    DistinctImage(order, i);
  }

  lemma {:induction false} DistinctImage(order: seq<Seat>, i: nat)
    requires i <= |order|
    requires forall a, b :: 0 <= a < b < |order| ==> order[a] != order[b]
    ensures |set j | 0 <= j < i :: order[j]| == i
  {
    if i > 0 {
      DistinctImage(order, i - 1);
      var s := set j | 0 <= j < i - 1 :: order[j];
      assert (set j | 0 <= j < i :: order[j]) == s + {order[i - 1]};
      assert order[i - 1] !in s;
    }
  }

  /** Every pile lists kinds only. */
  predicate PilesOfKinds(piles: seq<seq<int>>)
  {
    forall i :: 0 <= i < |piles| ==> AllKinds(piles[i])
  }

  lemma ReplacePile(piles: seq<seq<int>>, p: int, s: seq<int>)
    requires PilesOfKinds(piles) && AllKinds(s) && 0 <= p < |piles|
    ensures PilesOfKinds(piles[p := s])
  {
  }

  /** A pile keeps listing kinds when it grows by kinds or loses tiles. */
  lemma GrowPile(piles: seq<seq<int>>, p: int, s: seq<int>, extra: seq<int>)
    requires PilesOfKinds(piles) && 0 <= p < |piles| && AllKinds(extra)
    requires multiset(s) <= multiset(piles[p]) + multiset(extra)
    ensures PilesOfKinds(piles[p := s])
  {
    assert AllKinds(piles[p] + extra);
    AllKindsMultiset(piles[p] + extra, s);
  }

  /** Appending one more copy to a topped-up pile. */
  lemma TopUpStep(base: seq<int>, x: int, n: nat)
    ensures base + Repeat(x, n) + [x] == base + Repeat(x, n + 1)
    ensures Count(base + Repeat(x, n + 1), x) == Count(base, x) + n + 1
  {
  }

  /** The viewer's pile comes first, then the piles of the seats after it, in seat order. */
  function Rotate<T>(s: seq<T>, p: Seat): (r: seq<T>)
    requires |s| == 4
    ensures |r| == 4 && r[0] == s[p]
    ensures forall i :: 0 <= i < 4 ==> r[i] == s[(p + i) % 4]
  {
    seq(4, i requires 0 <= i < 4 => s[(p + i) % 4])
  }

  /** Rotating to seat `p` and then on by the seats' remaining distance gives the piles back. */
  lemma RotateBack<T>(s: seq<T>, p: Seat)
    requires |s| == 4
    ensures Rotate(Rotate(s, p), (4 - p) % 4) == s
  {
  }

  /** `GameState.__init__`: the hands, red fives, dora indicators, scores, kyoku and dealer given,
      empty piles, no riichi, no last discard or action, not finished. */
  datatype GameState = GameState(
    hands: seq<seq<int>>,
    redFives: seq<seq<int>>,
    discards: seq<seq<int>>,
    stolen: seq<seq<int>>,
    dora: seq<int>,
    riichi: seq<bool>,
    scores: seq<int>,
    kyoku: int,
    dealer: int,
    lastDiscard: Option<int>,
    lastAction: Option<Action>,
    finished: bool,
    gains: Option<seq<int>>)
  {
    /** Four seats wherever the source indexes by seat. */
    predicate WellSized()
    {
      |hands| == 4 && |redFives| == 4 && |discards| == 4 && |stolen| == 4 && |riichi| == 4 && |scores| == 4
    }

    /** Well sized, every listed tile a kind, and a round number the encoder can place. */
    predicate Valid()
    {
      && WellSized()
      && PilesOfKinds(hands) && PilesOfKinds(redFives) && PilesOfKinds(discards) && PilesOfKinds(stolen)
      && AllKinds(dora) && 0 <= kyoku
    }

    /** `make_draw`: the tile goes to the end of the seat's hand, unsorted; the last action is
        cleared and nothing else changes. */
    function Draw(p: Seat, t: int): (r: GameState)
      requires WellSized()
      ensures r.WellSized()
      ensures |r.hands[p]| == |hands[p]| + 1 && r.hands[p][..|hands[p]|] == hands[p] && r.hands[p][|hands[p]|] == t
      ensures multiset(r.hands[p]) == multiset(hands[p]) + multiset{t}
      ensures r.hands == hands[p := r.hands[p]]
      ensures r.lastAction == None
      ensures r.(hands := hands, lastAction := lastAction) == this
      ensures Valid() && IsKind(t) ==> r.Valid()
    {
      var h := hands[p] + [t];
      assert h[..|hands[p]|] == hands[p];
      assert Valid() && IsKind(t) ==> PilesOfKinds(hands[p := h]) by {
        if Valid() && IsKind(t) { GrowPile(hands, p, h, [t]); }
      }
      this.(hands := hands[p := h], lastAction := None)
    }

    /** `make_discard`: one copy of the tile leaves the hand, which is then sorted; the tile is
        appended to the seat's discards and becomes the last discard and the last action. The
        `list.remove` raises when the tile is not in the hand. */
    function Discard(p: Seat, t: int): (r: GameState)
      requires WellSized() && t in hands[p]
      ensures r.WellSized()
      ensures Sorted(r.hands[p]) && multiset(r.hands[p]) == multiset(hands[p]) - multiset{t}
      ensures |r.discards[p]| == |discards[p]| + 1 && r.discards[p][..|discards[p]|] == discards[p]
      ensures r.discards[p][|discards[p]|] == t
      ensures r.lastDiscard == Some(t) && r.lastAction == Some(Discarded(p, t))
      ensures r.hands == hands[p := r.hands[p]] && r.discards == discards[p := r.discards[p]]
      ensures r.(hands := hands, discards := discards, lastDiscard := lastDiscard, lastAction := lastAction) == this
      ensures Valid() ==> r.Valid()
    {
      var h := Sort(Remove(hands[p], t));
      var d := discards[p] + [t];
      assert d[..|discards[p]|] == discards[p];
      var r := this.(hands := hands[p := h], discards := discards[p := d],
                      lastDiscard := Some(t), lastAction := Some(Discarded(p, t)));
      assert Valid() ==> r.Valid() by {
        if Valid() {
          GrowPile(hands, p, h, []);
          assert t in multiset(hands[p]);
          GrowPile(discards, p, d, [t]);
        }
      }
      r
    }

    /** `make_riichi`: only the seat's riichi flag is set, and the declaration is the last action. */
    function Riichi(p: Seat): (r: GameState)
      requires WellSized()
      ensures r.WellSized()
      ensures r.riichi == riichi[p := true]
      ensures r.lastAction == Some(Declared(p))
      ensures r.(riichi := riichi, lastAction := lastAction) == this
      ensures Valid() ==> r.Valid()
    {
      this.(riichi := riichi[p := true], lastAction := Some(Declared(p)))
    }

    /** `make_dora`: the indicator is appended; the last action is cleared. */
    function Dora(t: int): (r: GameState)
      ensures |r.dora| == |dora| + 1 && r.dora[..|dora|] == dora && r.dora[|dora|] == t
      ensures r.lastAction == None
      ensures r.(dora := dora, lastAction := lastAction) == this
      ensures Valid() && IsKind(t) ==> r.Valid()
    {
      var d := dora + [t];
      assert d[..|dora|] == dora;
      this.(dora := d, lastAction := None)
    }

    /** `make_finish`: the round is over with the given scores and gains; the last action is cleared. */
    function Finish(newScores: seq<int>, newGains: seq<int>): (r: GameState)
      ensures r.finished && r.scores == newScores && r.gains == Some(newGains) && r.lastAction == None
      ensures r.(scores := scores, finished := finished, gains := gains, lastAction := lastAction) == this
      ensures Valid() && |newScores| == 4 ==> r.Valid()
    {
      this.(scores := newScores, finished := true, gains := Some(newGains), lastAction := None)
    }

    /** What `make_call` needs not to raise: a last discard, found among the called tiles, and the
        other called tiles in the hand (one `list.remove` per tile). */
    predicate CallPossible(p: Seat, tiles: seq<int>)
      requires WellSized()
    {
      && lastDiscard.Some? && lastDiscard.value in tiles
      && multiset(tiles) - multiset{lastDiscard.value} <= multiset(hands[p])
    }

    /** `make_call`: the called tiles join the seat's stolen tiles; the hand loses exactly the
        called tiles other than (one copy of) the discard, its order otherwise kept; the call is
        the last action and the last discard stays recorded. */
    function Call(p: Seat, tiles: seq<int>): (r: GameState)
      requires WellSized() && CallPossible(p, tiles)
      ensures r.WellSized()
      ensures r.stolen[p] == stolen[p] + tiles
      ensures multiset(r.hands[p]) == multiset(hands[p]) - (multiset(tiles) - multiset{lastDiscard.value})
      ensures |r.hands[p]| == |hands[p]| - (|tiles| - 1)
      ensures r.lastAction == Some(Called(p, tiles))
      ensures r.hands == hands[p := r.hands[p]] && r.stolen == stolen[p := r.stolen[p]]
      ensures r.(hands := hands, stolen := stolen, lastAction := lastAction) == this
      ensures Valid() && AllKinds(tiles) ==> r.Valid()
    {
      var rest := Remove(tiles, lastDiscard.value);
      RemoveEachSpec(hands[p], rest);
      var h := RemoveEach(hands[p], rest);
      var r := this.(hands := hands[p := h], stolen := stolen[p := stolen[p] + tiles],
                      lastAction := Some(Called(p, tiles)));
      assert Valid() && AllKinds(tiles) ==> r.Valid() by {
        if Valid() && AllKinds(tiles) {
          GrowPile(hands, p, h, []);
          GrowPile(stolen, p, stolen[p] + tiles, tiles);
        }
      }
      r
    }

    /** `make_call` as written: copy the called tiles, drop one copy of the last discard, then
        remove the rest from the hand one by one. */
    method MakeCall(p: Seat, tiles: seq<int>) returns (r: GameState)
      requires WellSized() && CallPossible(p, tiles)
      ensures r == Call(p, tiles)
    {
      var toRemove := Remove(tiles, lastDiscard.value);
      RemoveEachSpec(hands[p], toRemove);
      var hand := hands[p];
      for i := 0 to |toRemove|
        invariant CanRemoveEach(hand, toRemove[i..])
        invariant RemoveEach(hand, toRemove[i..]) == RemoveEach(hands[p], toRemove)
      {
        assert toRemove[i..][0] == toRemove[i] && toRemove[i..][1..] == toRemove[i + 1..];
        hand := Remove(hand, toRemove[i]);
      }
      assert toRemove[|toRemove|..] == [];
      r := this.(hands := hands[p := hand], stolen := stolen[p := stolen[p] + tiles],
                 lastAction := Some(Called(p, tiles)));
    }

    /** `make_kan`, keyed on the first tile's kind: the stolen pile is topped up with that kind
        until it holds four (or as many as it already had), only copies of that kind being
        appended; every copy leaves the hand and the other kinds stay as they were; the last
        action is cleared. `tiles[0]` raises on an empty list. */
    function Kan(p: Seat, tiles: seq<int>): (r: GameState)
      requires WellSized() && tiles != []
      ensures r.WellSized()
      ensures Count(r.stolen[p], tiles[0]) == (if Count(stolen[p], tiles[0]) < 4 then 4 else Count(stolen[p], tiles[0]))
      ensures |stolen[p]| <= |r.stolen[p]| && r.stolen[p][..|stolen[p]|] == stolen[p]
      ensures forall i :: |stolen[p]| <= i < |r.stolen[p]| ==> r.stolen[p][i] == tiles[0]
      ensures tiles[0] !in r.hands[p]
      ensures forall y :: y != tiles[0] ==> Count(r.hands[p], y) == Count(hands[p], y)
      ensures r.lastAction == None
      ensures r.hands == hands[p := r.hands[p]] && r.stolen == stolen[p := r.stolen[p]]
      ensures r.(hands := hands, stolen := stolen, lastAction := lastAction) == this
      ensures Valid() && IsKind(tiles[0]) ==> r.Valid()
    {
      var k := tiles[0];
      var pile := stolen[p] + Repeat(k, Missing(Count(stolen[p], k)));
      assert pile[..|stolen[p]|] == stolen[p];
      WithoutSpec(hands[p], k);
      var h := Without(hands[p], k);
      var r := this.(stolen := stolen[p := pile], hands := hands[p := h], lastAction := None);
      assert Valid() && IsKind(k) ==> r.Valid() by {
        if Valid() && IsKind(k) {
          WithoutShrinks(hands[p], k);
          GrowPile(hands, p, h, []);
          GrowPile(stolen, p, pile, Repeat(k, Missing(Count(stolen[p], k))));
        }
      }
      r
    }

    /** `make_kan` as written: append the kind while fewer than four copies are stolen, then
        remove it from the hand while it is there. */
    method MakeKan(p: Seat, tiles: seq<int>) returns (r: GameState)
      requires WellSized() && tiles != []
      ensures r == Kan(p, tiles)
    {
      var tile := tiles[0];
      var base := stolen[p];
      var pile := stolen[p];
      var added: nat := 0;
      var c0 := Count(base, tile);
      while Count(pile, tile) < 4
        invariant added <= Missing(c0)
        invariant pile == base + Repeat(tile, added)
        invariant Count(pile, tile) == c0 + added
        decreases 4 - Count(pile, tile)
      {
        TopUpStep(base, tile, added);
        pile := pile + [tile];
        added := added + 1;
      }
      assert added == Missing(c0);
      var hand := hands[p];
      while tile in hand
        invariant Without(hand, tile) == Without(hands[p], tile)
        decreases |hand|
      {
        WithoutRemove(hand, tile);
        hand := Remove(hand, tile);
      }
      WithoutSpec(hand, tile);
      r := this.(stolen := stolen[p := pile], hands := hands[p := hand], lastAction := None);
    }

    /** `_get_round_wind`: East (0) for the first four kyoku, South (1) afterwards. */
    function RoundWind(): (w: int)
      ensures w == 0 || w == 1
      ensures w == 0 <==> kyoku < 4
    {
      if kyoku < 4 then 0 else 1
    }

    /** `get_player_state`'s fields: the seat's own hand and red fives, every per-seat pile
        rotated so that the seat comes first, the rank, and the seat's wind counted from the dealer. */
    function View(p: Seat): (v: PlayerView)
      requires WellSized()
      ensures v.hand == hands[p] && v.redFives == redFives[p] && v.dora == dora && v.kyoku == kyoku
      ensures |v.discards| == 4 && forall i :: 0 <= i < 4 ==> v.discards[i] == discards[(p + i) % 4]
      ensures |v.stolen| == 4 && forall i :: 0 <= i < 4 ==> v.stolen[i] == stolen[(p + i) % 4]
      ensures |v.riichi| == 4 && forall i :: 0 <= i < 4 ==> v.riichi[i] == riichi[(p + i) % 4]
      ensures v.rank == RankOf(scores, p) && v.roundWind == RoundWind()
      ensures 0 <= v.ownWind < 4 && (dealer + v.ownWind) % 4 == p
      ensures Valid() ==> Encodable(v)
    {
      RankOrder(scores, p, p);
      PlayerView(hands[p], redFives[p], Rotate(discards, p), Rotate(stolen, p), dora,
                 Rotate(riichi, p), RankOf(scores, p), kyoku, RoundWind(), (p - dealer + 4) % 4)
    }

    /** `_get_player_rank` as written: scan the sorted seats for `p`. */
    method Rank(p: Seat) returns (r: int)
      requires WellSized()
      ensures r == RankOf(scores, p)
    {
      var order := StableOrder(scores, 4);
      StableOrderSpec(scores, 4);
      assert p in order && order[..4] == order;
      var i := 0;
      while i < 4
        invariant 0 <= i <= 4 && p !in order[..i]
      {
        if order[i] == p {
          return i;
        }
        assert order[..i + 1] == order[..i] + [order[i]];
        i := i + 1;
      }
      assert false;
    }

    /** `get_player_state`: a fresh, not yet encoded `PlayerState` of this seat's view. */
    method GetPlayerState(p: Seat, last: PlayerState?) returns (ps: PlayerState)
      requires WellSized()
      ensures fresh(ps) && ps.view == View(p) && ps.last == last
      ensures ps.data == null && ps.nextPlane == 0
    {
      var rank := Rank(p);
      var view := PlayerView(hands[p], redFives[p], Rotate(discards, p), Rotate(stolen, p), dora,
                             Rotate(riichi, p), rank, kyoku, RoundWind(), (p - dealer + 4) % 4);
      ps := new PlayerState(view, last);
    }
  }

  /** `GameState.__init__`: empty piles, no riichi, nothing discarded or done yet. */
  function NewState(hands: seq<seq<int>>, redFives: seq<seq<int>>, dora: seq<int>, scores: seq<int>,
                    kyoku: int, dealer: int): (gs: GameState)
    ensures gs.hands == hands && gs.redFives == redFives && gs.dora == dora && gs.scores == scores
    ensures gs.kyoku == kyoku && gs.dealer == dealer
    ensures gs.discards == [[], [], [], []] && gs.stolen == [[], [], [], []] && gs.riichi == [false, false, false, false]
    ensures gs.lastDiscard == None && gs.lastAction == None && !gs.finished && gs.gains == None
    ensures gs.Valid() <==>
      |hands| == 4 && |redFives| == 4 && |scores| == 4 && 0 <= kyoku && AllKinds(dora)
      && PilesOfKinds(hands) && PilesOfKinds(redFives)
  {
    GameState(hands, redFives, [[], [], [], []], [[], [], [], []], dora, [false, false, false, false],
              scores, kyoku, dealer, None, None, false, None)
  }

  // ---------------------------------------------------------------------------------------------
  // The legality oracle against the transitions

  /** A legal pon on the last discard is a call `make_call` can carry out. */
  lemma PonEnablesCall(gs: GameState, p: Seat, d: int)
    requires gs.WellSized() && gs.lastDiscard == Some(d) && CanCallPon(gs.hands[p], d)
    ensures gs.CallPossible(p, [d, d, d])
    ensures |gs.Call(p, [d, d, d]).hands[p]| == |gs.hands[p]| - 2
  {
    assert multiset([d, d, d]) - multiset{d} == multiset{d, d};
  }

  /** A chii position the oracle reports is a call `make_call` can carry out. */
  lemma ChiiEnablesCall(gs: GameState, p: Seat, d: int, k: int)
    requires gs.WellSized() && gs.lastDiscard == Some(d) && k in CanCallChii(gs.hands[p], d)
    ensures gs.CallPossible(p, RunTiles(d, k))
    ensures |gs.Call(p, RunTiles(d, k)).hands[p]| == |gs.hands[p]| - 2
  {
    RunOthersInHand(gs.hands[p], d, k);
  }

  /** The seat viewing itself is the dealer exactly when its own wind is East. */
  lemma DealerIsEast(gs: GameState, p: Seat)
    requires gs.WellSized()
    ensures gs.View(p).ownWind == 0 <==> p == gs.dealer % 4
  {
  }

  // ---------------------------------------------------------------------------------------------
  // Tile conservation

  /** Copies of kind `x` over a list of piles. */
  function CountIn(piles: seq<seq<int>>, x: int): nat
  {
    if piles == [] then 0 else CountIn(piles[..|piles| - 1], x) + Count(piles[|piles| - 1], x)
  }

  /** Replacing one pile changes the total by that pile's change. */
  lemma {:induction false} CountInUpdate(piles: seq<seq<int>>, i: int, s: seq<int>, x: int)
    requires 0 <= i < |piles|
    ensures CountIn(piles[i := s], x) == CountIn(piles, x) - Count(piles[i], x) + Count(s, x)
  {
    var last := |piles| - 1;
    assert piles[i := s][..last] == if i == last then piles[..last] else piles[..last][i := s];
    if i < last {
      CountInUpdate(piles[..last], i, s, x);
    }
  }

  lemma CountInSeats(piles: seq<seq<int>>, x: int)
    requires |piles| == 4
    ensures CountIn(piles, x) == Count(piles[0], x) + Count(piles[1], x) + Count(piles[2], x) + Count(piles[3], x)
  {
    var p3, p2, p1 := piles[..3], piles[..2], piles[..1];
    assert p3[..2] == p2 && p2[..1] == p1 && p1[..0] == [];
    assert CountIn(p1, x) == Count(piles[0], x);
    assert CountIn(p2, x) == CountIn(p1, x) + Count(piles[1], x);
    assert CountIn(p3, x) == CountIn(p2, x) + Count(piles[2], x);
  }

  /** Copies of kind `x` in sight: hands, discard piles, stolen piles and dora indicators. */
  function InSight(gs: GameState, x: int): int
  {
    CountIn(gs.hands, x) + CountIn(gs.discards, x) + CountIn(gs.stolen, x) + Count(gs.dora, x)
  }

  /** A discard only moves a tile from the hand to the pile. */
  lemma DiscardKeepsSight(gs: GameState, p: Seat, t: int, x: int)
    requires gs.WellSized() && t in gs.hands[p]
    ensures InSight(gs.Discard(p, t), x) == InSight(gs, x)
  {
    var r := gs.Discard(p, t);
    CountInUpdate(gs.hands, p, r.hands[p], x);
    CountInUpdate(gs.discards, p, r.discards[p], x);
    assert r.discards[p] == gs.discards[p] + [t];
  }

  /** A called discard stays in the discarder's pile and also joins the caller's stolen pile:
      after the call one more copy of that kind is in sight, and of no other kind. */
  lemma CallShowsDiscardTwice(gs: GameState, p: Seat, tiles: seq<int>, x: int)
    requires gs.WellSized() && gs.CallPossible(p, tiles)
    ensures InSight(gs.Call(p, tiles), x) == InSight(gs, x) + (if x == gs.lastDiscard.value then 1 else 0)
  {
    var r := gs.Call(p, tiles);
    var d := gs.lastDiscard.value;
    CountInUpdate(gs.hands, p, r.hands[p], x);
    CountInUpdate(gs.stolen, p, r.stolen[p], x);
    assert d in multiset(tiles);
    assert Count(r.stolen[p], x) == Count(gs.stolen[p], x) + Count(tiles, x);
  }

  /** Against a four-copies-per-kind bound: with all four copies of a kind in sight, a discard
      and a pon of it show five. */
  lemma PonBreaksFourCopies()
    ensures var gs := NewState([[5], [5, 5], [5], []], [[], [], [], []], [], [0, 0, 0, 0], 0, 0);
            var after := gs.Discard(0, 5);
            && InSight(gs, 5) == 4
            && after.CallPossible(1, [5, 5, 5])
            && InSight(after.Call(1, [5, 5, 5]), 5) == 5
  {
    var gs := NewState([[5], [5, 5], [5], []], [[], [], [], []], [], [0, 0, 0, 0], 0, 0);
    var after := gs.Discard(0, 5);
    CountInSeats(gs.hands, 5);
    CountInSeats(gs.discards, 5);
    CountInSeats(gs.stolen, 5);
    assert Count([5, 5], 5) == 2;
    assert InSight(gs, 5) == 4;
    DiscardKeepsSight(gs, 0, 5, 5);
    assert after.hands[1] == [5, 5];
    assert multiset([5, 5, 5]) - multiset{5} == multiset{5, 5};
    CallShowsDiscardTwice(after, 1, [5, 5, 5], 5);
  }
}
