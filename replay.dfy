/** The replay driver: `process_round` folds a round's records into snapshots, buffers the
    snapshots that carry an action tag, and on every finish hands the buffer to the four sample
    extractors, which append (input, label) pairs to the training lists. */
module Replay {
  import opened Wrappers
  import opened Tiles
  import opened Shapes
  import opened Riichi
  import opened Encoding
  import opened Game
  import opened Events

  /** One encoded sample: 43 planes of 34 rows of 4 columns. */
  datatype Tensor = Tensor(planes: seq<seq<seq<int>>>)

  /** An `x_data` list and its `y_data` list. The extractors are specified with `Pick`s in
      place of the inputs, and the lists `process_round` appends to hold `Tensor`s. */
  datatype Batch<X> = Batch(xs: seq<X>, ys: seq<int>)
  {
    /** `x_data.append(x); y_data.append(y)`. */
    function Add(x: X, y: int): Batch<X>
    {
      Batch(xs + [x], ys + [y])
    }

    /** `x_data.append(x)`, followed by `y_data.append(y)` only when there is a label. */
    function AddMaybe(x: X, y: Option<int>): Batch<X>
    {
      if y.Some? then Add(x, y.value) else Batch(xs + [x], ys)
    }

    /** This batch followed by the samples of `b`. */
    function Then(b: Batch<X>): Batch<X>
    {
      Batch(xs + b.xs, ys + b.ys)
    }
  }

  function NoSamples<X>(): Batch<X>
  {
    Batch([], [])
  }

  /** Appending after a concatenation appends to its second part. */
  lemma AddAfter<X>(a: Batch<X>, b: Batch<X>, x: X, y: Option<int>)
    ensures a.Then(b).AddMaybe(x, y) == a.Then(b.AddMaybe(x, y))
  {
    assert a.xs + b.xs + [x] == a.xs + (b.xs + [x]);
    if y.Some? {
      assert a.ys + b.ys + [y.value] == a.ys + (b.ys + [y.value]);
    }
  }

  lemma ThenAssoc<X>(a: Batch<X>, b: Batch<X>, c: Batch<X>)
    ensures a.Then(b).Then(c) == a.Then(b.Then(c))
  {
    assert a.xs + b.xs + c.xs == a.xs + (b.xs + c.xs);
    assert a.ys + b.ys + c.ys == a.ys + (b.ys + c.ys);
  }

  /** The four pairs of lists `process_round` appends to. */
  datatype DataSets = DataSets(discard: Batch<Tensor>, pon: Batch<Tensor>, chii: Batch<Tensor>, riichi: Batch<Tensor>)

  predicate AllValid(states: seq<GameState>)
  {
    forall i :: 0 <= i < |states| ==> states[i].Valid()
  }

  /** `cur.get_player_state(p, prev.get_player_state(p, None)).make_data()`, as a value. */
  function Sample(cur: GameState, prev: GameState, p: Seat): Tensor
    requires cur.Valid() && prev.Valid()
  {
    Tensor(Encode(cur.View(p), Some(prev.View(p))))
  }

  /** The sample of one seat built from two snapshots: a fresh player state for each, the older
      one as the newer one's previous state, and the array `make_data` fills, read back. */
  method TakeSample(cur: GameState, prev: GameState, p: Seat) returns (t: Tensor)
    requires cur.Valid() && prev.Valid()
    ensures t == Sample(cur, prev, p)
  {
    var older := prev.GetPlayerState(p, null);
    var newer := cur.GetPlayerState(p, older);
    var data := newer.MakeData();
    SnapshotOfEncoding(data, newer.view, newer.LastView());
    t := Tensor(Snapshot(data));
  }

  /** Which sample an extractor takes: that of seat `p` in snapshot `cur`, with snapshot `prev`
      as the previous state. */
  datatype Pick = Pick(cur: nat, prev: nat, p: Seat)

  predicate Picks(states: seq<GameState>, picks: seq<Pick>)
  {
    forall k :: 0 <= k < |picks| ==> picks[k].cur < |states| && picks[k].prev < |states|
  }

  /** The samples the picks stand for, in order. */
  function Render(states: seq<GameState>, picks: seq<Pick>): (r: seq<Tensor>)
    requires AllValid(states) && Picks(states, picks)
    ensures |r| == |picks|
  {
    seq(|picks|, k requires 0 <= k < |picks| => Sample(states[picks[k].cur], states[picks[k].prev], picks[k].p))
  }

  lemma RenderAppend(states: seq<GameState>, a: seq<Pick>, b: seq<Pick>)
    requires AllValid(states) && Picks(states, a) && Picks(states, b)
    ensures Picks(states, a + b) && Render(states, a + b) == Render(states, a) + Render(states, b)
  {
    forall k | 0 <= k < |a + b| ensures (a + b)[k] == if k < |a| then a[k] else b[k - |a|] {
    }
    RenderFront(states, a, b);
    RenderBack(states, a, b);
    Glue(Render(states, a + b), Render(states, a), Render(states, b));
  }

  /** A sequence is its front followed by its back. */
  lemma Glue<T>(r: seq<T>, x: seq<T>, y: seq<T>)
    requires |x| <= |r| && r[..|x|] == x && r[|x|..] == y
    ensures r == x + y
  {
    assert r == r[..|x|] + r[|x|..];
  }

  lemma RenderFront(states: seq<GameState>, a: seq<Pick>, b: seq<Pick>)
    requires AllValid(states) && Picks(states, a) && Picks(states, a + b)
    ensures |a| <= |Render(states, a + b)| && Render(states, a + b)[..|a|] == Render(states, a)
  {
    var r, ra := Render(states, a + b), Render(states, a);
    forall k | 0 <= k < |a| ensures r[k] == ra[k] {
      assert (a + b)[k] == a[k];
    }
  }

  lemma RenderBack(states: seq<GameState>, a: seq<Pick>, b: seq<Pick>)
    requires AllValid(states) && Picks(states, b) && Picks(states, a + b)
    ensures |a| <= |Render(states, a + b)| && Render(states, a + b)[|a|..] == Render(states, b)
  {
    var r, rb := Render(states, a + b), Render(states, b);
    var tail := r[|a|..];
    forall k | 0 <= k < |b| ensures tail[k] == rb[k] {
      assert tail[k] == r[|a| + k] && (a + b)[|a| + k] == b[k];
    }
  }

  /** The tensors of a batch of picks. */
  function Rendered(states: seq<GameState>, b: Batch<Pick>): Batch<Tensor>
    requires AllValid(states) && Picks(states, b.xs)
  {
    Batch(Render(states, b.xs), b.ys)
  }

  lemma RenderedThen(states: seq<GameState>, a: Batch<Pick>, b: Batch<Pick>)
    requires AllValid(states) && Picks(states, a.xs) && Picks(states, b.xs)
    ensures Picks(states, a.Then(b).xs) && Rendered(states, a.Then(b)) == Rendered(states, a).Then(Rendered(states, b))
  {
    RenderAppend(states, a.xs, b.xs);
  }

  lemma RenderedAdd(states: seq<GameState>, b: Batch<Pick>, k: Pick, y: Option<int>)
    requires AllValid(states) && Picks(states, b.xs) && k.cur < |states| && k.prev < |states|
    ensures Picks(states, b.AddMaybe(k, y).xs)
    ensures Rendered(states, b.AddMaybe(k, y)) == Rendered(states, b).AddMaybe(Sample(states[k.cur], states[k.prev], k.p), y)
  {
    RenderAppend(states, b.xs, [k]);
  }

  /** The step an extractor's loop takes: appending a sample to the lists appends its pick to
      the batch they render. */
  lemma Appended(states: seq<GameState>, done: Batch<Tensor>, before: Batch<Pick>, k: Pick, y: Option<int>, x: Tensor)
    requires AllValid(states) && Picks(states, before.xs) && k.cur < |states| && k.prev < |states|
    requires x == Sample(states[k.cur], states[k.prev], k.p)
    ensures Picks(states, before.AddMaybe(k, y).xs)
    ensures done.Then(Rendered(states, before)).AddMaybe(x, y) == done.Then(Rendered(states, before.AddMaybe(k, y)))
  {
    RenderedAdd(states, before, k, y);
    AddAfter(done, Rendered(states, before), x, y);
  }

  /** `x_data.append(x)` for the sample `k` stands for, and `y_data.append(y)` when there is a label. */
  method AppendSample(states: seq<GameState>, ghost done: Batch<Tensor>, ghost before: Batch<Pick>, k: Pick, y: Option<int>,
                      r: Batch<Tensor>) returns (s: Batch<Tensor>)
    requires AllValid(states) && Picks(states, before.xs) && k.cur < |states| && k.prev < |states|
    requires r == done.Then(Rendered(states, before))
    ensures Picks(states, before.AddMaybe(k, y).xs)
    ensures s == done.Then(Rendered(states, before.AddMaybe(k, y)))
  {
    var x := TakeSample(states[k.cur], states[k.prev], k.p);
    Appended(states, done, before, k, y, x);
    s := r.AddMaybe(x, y);
  }

  /** How many snapshots `gs_list[:-1]` holds. */
  function Pairs(states: seq<GameState>): nat
  {
    if states == [] then 0 else |states| - 1
  }

  // ---------------------------------------------------------------------------------------------
  // process_discards

  /** The tile `p` discarded in this snapshot, when `p` is not in riichi there. */
  function DiscardedTile(gs: GameState, p: Seat): Option<int>
    requires gs.WellSized()
  {
    match gs.lastAction
    case Some(Discarded(q, t)) => if q == p && !gs.riichi[p] then Some(t) else None
    case _ => None
  }

  /** The picks of seat `p` from the snapshots before index `n`; the first two are skipped. */
  function DiscardRow(states: seq<GameState>, p: Seat, n: nat): (b: Batch<Pick>)
    requires AllValid(states) && n <= |states|
    ensures Picks(states, b.xs)
  {
    if n <= 2 then NoSamples()
    else
      var b := DiscardRow(states, p, n - 1);
      var i := n - 1;
      RenderedAdd(states, b, Pick(i - 1, i - 2, p), DiscardedTile(states[i], p));
      if DiscardedTile(states[i], p).Some? then b.Add(Pick(i - 1, i - 2, p), DiscardedTile(states[i], p).value) else b
  }

  /** The picks of the seats below `seats`, seat by seat. */
  function Discards(states: seq<GameState>, seats: nat): (b: Batch<Pick>)
    requires AllValid(states) && seats <= 4
    ensures Picks(states, b.xs)
  {
    if seats == 0 then NoSamples()
    else
      RenderedThen(states, Discards(states, seats - 1), DiscardRow(states, seats - 1, |states|));
      Discards(states, seats - 1).Then(DiscardRow(states, seats - 1, |states|))
  }

  /** `process_discards`: for every seat, every snapshot from the third on in which that seat
      discarded outside riichi yields the view of the snapshot before it (with the one before
      that as previous) and the discarded kind. */
  method ProcessDiscards(states: seq<GameState>, data: Batch<Tensor>) returns (r: Batch<Tensor>)
    requires AllValid(states)
    ensures r == data.Then(Rendered(states, Discards(states, 4)))
  {
    r := data;
    for player := 0 to 4
      invariant r == data.Then(Rendered(states, Discards(states, player)))
    {
      ghost var done := data.Then(Rendered(states, Discards(states, player)));
      for index := 0 to |states|
        invariant r == done.Then(Rendered(states, DiscardRow(states, player, index)))
      {
        if index >= 2 {
          r := DiscardCandidate(states, done, player, index, r);
        } else {
          DiscardRowNext(states, player, index);
        }
      }
      RenderedThen(states, Discards(states, player), DiscardRow(states, player, |states|));
      ThenAssoc(data, Rendered(states, Discards(states, player)), Rendered(states, DiscardRow(states, player, |states|)));
    }
  }

  /** The body of the inner loop of `process_discards` for a snapshot from the third on. */
  method DiscardCandidate(states: seq<GameState>, ghost done: Batch<Tensor>, player: Seat, index: nat, r: Batch<Tensor>)
    returns (s: Batch<Tensor>)
    requires AllValid(states) && 2 <= index < |states|
    requires r == done.Then(Rendered(states, DiscardRow(states, player, index)))
    ensures s == done.Then(Rendered(states, DiscardRow(states, player, index + 1)))
  {
    var gs := states[index];
    DiscardRowNext(states, player, index);
    if gs.lastAction.Some? && gs.lastAction.value.Discarded? && gs.lastAction.value.player == player
       && !gs.riichi[player]
    {
      s := AppendSample(states, done, DiscardRow(states, player, index), Pick(index - 1, index - 2, player),
                        Some(gs.lastAction.value.tile), r);
    } else {
      s := r;
    }
  }

  lemma DiscardRowNext(states: seq<GameState>, p: Seat, i: nat)
    requires AllValid(states) && i < |states|
    ensures DiscardRow(states, p, i + 1) ==
      if 2 <= i && DiscardedTile(states[i], p).Some?
      then DiscardRow(states, p, i).Add(Pick(i - 1, i - 2, p), DiscardedTile(states[i], p).value)
      else DiscardRow(states, p, i)
  {
  }

  /** A discard sample of seat `p` labelled by snapshot `i`. */
  predicate DiscardPick(states: seq<GameState>, k: Pick, y: int)
    requires AllValid(states)
  {
    2 <= k.cur + 1 < |states| && k.prev == k.cur - 1 && DiscardedTile(states[k.cur + 1], k.p) == Some(y)
  }

  lemma {:induction false} DiscardRowSound(states: seq<GameState>, p: Seat, n: nat)
    requires AllValid(states) && n <= |states|
    ensures var b := DiscardRow(states, p, n);
      |b.xs| == |b.ys| && forall k :: 0 <= k < |b.xs| ==> b.xs[k].p == p && DiscardPick(states, b.xs[k], b.ys[k])
  {
    if n > 2 {
      DiscardRowSound(states, p, n - 1);
    }
  }

  /** Every discard sample is aligned with its label, and pairs the view of the snapshot before
      a discard (with the one before that as previous) with the discarded kind, for a seat not
      in riichi. */
  lemma {:induction false} DiscardsSound(states: seq<GameState>, seats: nat)
    requires AllValid(states) && seats <= 4
    ensures var b := Discards(states, seats);
      |b.xs| == |b.ys| && forall k :: 0 <= k < |b.xs| ==> DiscardPick(states, b.xs[k], b.ys[k])
  {
    if seats > 0 {
      DiscardsSound(states, seats - 1);
      DiscardRowSound(states, seats - 1, |states|);
    }
  }

  /** Conversely, every such discard of every seat yields a sample. */
  lemma {:induction false} DiscardsComplete(states: seq<GameState>, seats: nat, p: Seat, i: nat)
    requires AllValid(states) && p < seats <= 4 && 2 <= i < |states| && DiscardedTile(states[i], p).Some?
    ensures Pick(i - 1, i - 2, p) in Discards(states, seats).xs
  {
    if seats - 1 != p {
      DiscardsComplete(states, seats - 1, p, i);
    } else {
      DiscardRowComplete(states, p, |states|, i);
    }
  }

  lemma {:induction false} DiscardRowComplete(states: seq<GameState>, p: Seat, n: nat, i: nat)
    requires AllValid(states) && n <= |states| && 2 <= i < n && DiscardedTile(states[i], p).Some?
    ensures Pick(i - 1, i - 2, p) in DiscardRow(states, p, n).xs
  {
    if i < n - 1 {
      DiscardRowComplete(states, p, n - 1, i);
    }
  }

  // ---------------------------------------------------------------------------------------------
  // process_pons

  /** Another seat's discard that `p`, not in riichi, could pon. */
  predicate PonOffered(gs: GameState, p: Seat)
    requires gs.WellSized()
  {
    match gs.lastAction
    case Some(Discarded(q, t)) => q != p && !gs.riichi[p] && CanCallPon(gs.hands[p], t)
    case _ => false
  }

  /** 1 when the snapshot is a call by `p`, of whatever kind, and 0 otherwise. */
  function CallLabel(next: GameState, p: Seat): int
  {
    match next.lastAction
    case Some(Called(q, _)) => Flag(q == p)
    case _ => 0
  }

  function PonRow(states: seq<GameState>, p: Seat, n: nat): (b: Batch<Pick>)
    requires AllValid(states) && n <= Pairs(states)
    ensures Picks(states, b.xs)
  {
    if n == 0 then NoSamples()
    else
      var b := PonRow(states, p, n - 1);
      var i := n - 1;
      RenderedAdd(states, b, Pick(i + 1, i, p), Some(CallLabel(states[i + 1], p)));
      if PonOffered(states[i], p) then b.Add(Pick(i + 1, i, p), CallLabel(states[i + 1], p)) else b
  }

  function Pons(states: seq<GameState>, seats: nat): (b: Batch<Pick>)
    requires AllValid(states) && seats <= 4
    ensures Picks(states, b.xs)
  {
    if seats == 0 then NoSamples()
    else
      RenderedThen(states, Pons(states, seats - 1), PonRow(states, seats - 1, Pairs(states)));
      Pons(states, seats - 1).Then(PonRow(states, seats - 1, Pairs(states)))
  }

  /** `process_pons`: for every seat, every snapshot but the last in which another seat
      discarded a kind this seat could pon yields the view of the next snapshot (with this one
      as previous) and whether the next snapshot is a call by this seat. */
  method ProcessPons(states: seq<GameState>, data: Batch<Tensor>) returns (r: Batch<Tensor>)
    requires AllValid(states)
    ensures r == data.Then(Rendered(states, Pons(states, 4)))
  {
    r := data;
    for player := 0 to 4
      invariant r == data.Then(Rendered(states, Pons(states, player)))
    {
      ghost var done := data.Then(Rendered(states, Pons(states, player)));
      for index := 0 to Pairs(states)
        invariant r == done.Then(Rendered(states, PonRow(states, player, index)))
      {
        r := PonCandidate(states, done, player, index, r);
      }
      RenderedThen(states, Pons(states, player), PonRow(states, player, Pairs(states)));
      ThenAssoc(data, Rendered(states, Pons(states, player)), Rendered(states, PonRow(states, player, Pairs(states))));
    }
  }

  /** The body of the inner loop of `process_pons`. */
  method PonCandidate(states: seq<GameState>, ghost done: Batch<Tensor>, player: Seat, index: nat, r: Batch<Tensor>)
    returns (s: Batch<Tensor>)
    requires AllValid(states) && index < Pairs(states)
    requires r == done.Then(Rendered(states, PonRow(states, player, index)))
    ensures s == done.Then(Rendered(states, PonRow(states, player, index + 1)))
  {
    var gs := states[index];
    PonRowNext(states, player, index);
    if gs.lastAction.Some? && gs.lastAction.value.Discarded? && gs.lastAction.value.player != player
       && !gs.riichi[player] && CanCallPon(gs.hands[player], gs.lastAction.value.tile)
    {
      var next := states[index + 1];
      var called := next.lastAction.Some? && next.lastAction.value.Called? && next.lastAction.value.player == player;
      s := AppendSample(states, done, PonRow(states, player, index), Pick(index + 1, index, player),
                        Some(if called then 1 else 0), r);
    } else {
      s := r;
    }
  }

  lemma PonRowNext(states: seq<GameState>, p: Seat, i: nat)
    requires AllValid(states) && i < Pairs(states)
    ensures PonRow(states, p, i + 1) ==
      if PonOffered(states[i], p) then PonRow(states, p, i).Add(Pick(i + 1, i, p), CallLabel(states[i + 1], p))
      else PonRow(states, p, i)
  {
  }

  /** A pon sample of seat `p` on the discard in snapshot `i`. */
  predicate PonPick(states: seq<GameState>, k: Pick, y: int)
    requires AllValid(states)
  {
    0 <= k.prev < |states| - 1 && k.cur == k.prev + 1 && PonOffered(states[k.prev], k.p)
    && y == CallLabel(states[k.cur], k.p)
  }

  lemma {:induction false} PonRowSound(states: seq<GameState>, p: Seat, n: nat)
    requires AllValid(states) && n <= Pairs(states)
    ensures var b := PonRow(states, p, n);
      |b.xs| == |b.ys| && forall k :: 0 <= k < |b.xs| ==> b.xs[k].p == p && PonPick(states, b.xs[k], b.ys[k])
  {
    if n > 0 {
      PonRowSound(states, p, n - 1);
    }
  }

  /** Every pon sample is aligned with its label, comes from a discard the seat could pon, and
      is labelled 0 or 1. */
  lemma {:induction false} PonsSound(states: seq<GameState>, seats: nat)
    requires AllValid(states) && seats <= 4
    ensures var b := Pons(states, seats);
      |b.xs| == |b.ys|
      && (forall k :: 0 <= k < |b.xs| ==> PonPick(states, b.xs[k], b.ys[k]))
      && (forall k :: 0 <= k < |b.ys| ==> b.ys[k] == 0 || b.ys[k] == 1)
  {
    if seats > 0 {
      PonsSound(states, seats - 1);
      PonRowSound(states, seats - 1, Pairs(states));
    }
  }

  /** Conversely, every snapshot but the last in which another seat discarded a kind that `p`,
      not in riichi, could pon yields a sample, labelled by whether the next snapshot is `p`'s call. */
  lemma {:induction false} PonsComplete(states: seq<GameState>, seats: nat, p: Seat, i: nat)
    requires AllValid(states) && p < seats <= 4 && i < Pairs(states) && PonOffered(states[i], p)
    ensures var b := Pons(states, seats);
      && Pick(i + 1, i, p) in b.xs && |b.xs| == |b.ys|
      && forall k :: 0 <= k < |b.xs| && b.xs[k] == Pick(i + 1, i, p) ==> b.ys[k] == CallLabel(states[i + 1], p)
  {
    PonRowComplete(states, p, Pairs(states), i);
    PonsIncludes(states, seats, p, Pick(i + 1, i, p));
    PonsSound(states, seats);
  }

  /** A pick of a seat's row is among the picks of every seat from it on. */
  lemma {:induction false} PonsIncludes(states: seq<GameState>, seats: nat, p: Seat, x: Pick)
    requires AllValid(states) && p < seats <= 4 && x in PonRow(states, p, Pairs(states)).xs
    ensures x in Pons(states, seats).xs
  {
    if seats - 1 != p {
      PonsIncludes(states, seats - 1, p, x);
    }
  }

  lemma {:induction false} PonRowComplete(states: seq<GameState>, p: Seat, n: nat, i: nat)
    requires AllValid(states) && i < n <= Pairs(states) && PonOffered(states[i], p)
    ensures Pick(i + 1, i, p) in PonRow(states, p, n).xs
  {
    if i < n - 1 {
      PonRowComplete(states, p, n - 1, i);
    }
  }

  /** A chii by the seat right after a discard it could also pon counts as a pon: the label
      only asks whether the next snapshot is a call by that seat. */
  lemma ChiiLabelledAsPon(s: GameState, t: GameState, p: Seat, q: Seat, d: int, k: int)
    requires s.Valid() && t.Valid() && q != p && !s.riichi[p]
    requires s.lastAction == Some(Discarded(q, d)) && CanCallPon(s.hands[p], d)
    requires t.lastAction == Some(Called(p, RunTiles(d, k)))
    ensures PonRow([s, t], p, 1) == Batch([Pick(1, 0, p)], [1])
  {
  }

  // ---------------------------------------------------------------------------------------------
  // process_chiis

  /** The left neighbour's discard that `p`, not in riichi, could chii in some position. */
  predicate ChiiOffered(gs: GameState, p: Seat)
    requires gs.WellSized()
  {
    match gs.lastAction
    case Some(Discarded(q, t)) => q == (p + 3) % 4 && !gs.riichi[p] && CanCallChii(gs.hands[p], t) != []
    case _ => false
  }

  /** The next snapshot is a call by `p` of at least two distinct kinds (`called_chii`). */
  predicate SeatChii(next: GameState, p: Seat)
  {
    next.lastAction.Some? && next.lastAction.value.Called? && next.lastAction.value.player == p
    && |Distinct(next.lastAction.value.tiles)| > 1
  }

  /** The label of a chii sample: 0 unless the next snapshot is a call by `p` with at least two
      kinds; then the position of the discard `d` in the sorted called tiles, 1 to 3, and no label
      at all when they are not a run through `d`. */
  function ChiiLabel(next: GameState, p: Seat, d: int): (y: Option<int>)
    ensures y.Some? ==> 0 <= y.value <= 3
    ensures y == Some(0) <==> !SeatChii(next, p)
    ensures forall k :: 1 <= k <= 3 ==>
      (y == Some(k) <==> SeatChii(next, p) && Sort(next.lastAction.value.tiles) == RunTiles(d, k))
    ensures y.None? <==>
      SeatChii(next, p) && forall k :: 1 <= k <= 3 ==> Sort(next.lastAction.value.tiles) != RunTiles(d, k)
  {
    if SeatChii(next, p) then
      var called := Sort(next.lastAction.value.tiles);
      RunTilesDiffer(d);
      if called == RunTiles(d, 1) then Some(1)
      else if called == RunTiles(d, 2) then Some(2)
      else if called == RunTiles(d, 3) then Some(3)
      else None
    else Some(0)
  }

  /** The three runs through a discard are three different lists. */
  lemma RunTilesDiffer(d: int)
    ensures forall j, k :: RunTiles(d, j) == RunTiles(d, k) ==> j == k
  {
    forall j, k | RunTiles(d, j) == RunTiles(d, k) ensures j == k {
      assert RunTiles(d, j)[0] == RunTiles(d, k)[0];
    }
  }

  /** The picks of snapshot `i` for the seats below `seats`. */
  function ChiiCell(states: seq<GameState>, i: nat, seats: nat): (b: Batch<Pick>)
    requires AllValid(states) && i < Pairs(states) && seats <= 4
    ensures Picks(states, b.xs)
  {
    if seats == 0 then NoSamples()
    else
      var b := ChiiCell(states, i, seats - 1);
      var p := seats - 1;
      if ChiiOffered(states[i], p) then
        var y := ChiiLabel(states[i + 1], p, states[i].lastAction.value.tile);
        RenderedAdd(states, b, Pick(i + 1, i, p), y);
        b.AddMaybe(Pick(i + 1, i, p), y)
      else b
  }

  /** The picks of the snapshots before index `n`, snapshot by snapshot. */
  function Chiis(states: seq<GameState>, n: nat): (b: Batch<Pick>)
    requires AllValid(states) && n <= Pairs(states)
    ensures Picks(states, b.xs)
  {
    if n == 0 then NoSamples()
    else
      RenderedThen(states, Chiis(states, n - 1), ChiiCell(states, n - 1, 4));
      Chiis(states, n - 1).Then(ChiiCell(states, n - 1, 4))
  }

  /** `process_chiis`: for every snapshot but the last and every seat, a discard by the seat's
      left neighbour that the seat could chii yields the view of the next snapshot (with this one
      as previous), and a label when `ChiiLabel` finds one. */
  method ProcessChiis(states: seq<GameState>, data: Batch<Tensor>) returns (r: Batch<Tensor>)
    requires AllValid(states)
    ensures r == data.Then(Rendered(states, Chiis(states, Pairs(states))))
  {
    r := data;
    for index := 0 to Pairs(states)
      invariant r == data.Then(Rendered(states, Chiis(states, index)))
    {
      ghost var done := data.Then(Rendered(states, Chiis(states, index)));
      for player := 0 to 4
        invariant r == done.Then(Rendered(states, ChiiCell(states, index, player)))
      {
        r := ChiiCandidate(states, done, index, player, r);
      }
      RenderedThen(states, Chiis(states, index), ChiiCell(states, index, 4));
      ThenAssoc(data, Rendered(states, Chiis(states, index)), Rendered(states, ChiiCell(states, index, 4)));
    }
  }

  /** The body of the inner loop of `process_chiis`. */
  method ChiiCandidate(states: seq<GameState>, ghost done: Batch<Tensor>, index: nat, player: Seat, r: Batch<Tensor>)
    returns (s: Batch<Tensor>)
    requires AllValid(states) && index < Pairs(states)
    requires r == done.Then(Rendered(states, ChiiCell(states, index, player)))
    ensures s == done.Then(Rendered(states, ChiiCell(states, index, player + 1)))
  {
    var gs := states[index];
    ChiiCellNext(states, index, player);
    if gs.lastAction.Some? && gs.lastAction.value.Discarded? && gs.lastAction.value.player == (player + 3) % 4
       && !gs.riichi[player] && CanCallChii(gs.hands[player], gs.lastAction.value.tile) != []
    {
      var next := states[index + 1];
      var y := ChiiLabel(next, player, gs.lastAction.value.tile);
      s := AppendSample(states, done, ChiiCell(states, index, player), Pick(index + 1, index, player), y, r);
    } else {
      s := r;
    }
  }

  lemma ChiiCellNext(states: seq<GameState>, i: nat, p: Seat)
    requires AllValid(states) && i < Pairs(states)
    ensures ChiiCell(states, i, p + 1) ==
      if ChiiOffered(states[i], p)
      then ChiiCell(states, i, p).AddMaybe(Pick(i + 1, i, p), ChiiLabel(states[i + 1], p, states[i].lastAction.value.tile))
      else ChiiCell(states, i, p)
  {
  }

  /** A chii sample of seat `p` on the discard in snapshot `i`. */
  predicate ChiiPick(states: seq<GameState>, k: Pick)
    requires AllValid(states)
  {
    0 <= k.prev < |states| - 1 && k.cur == k.prev + 1 && ChiiOffered(states[k.prev], k.p)
  }

  /** The labels never outnumber the samples, every label is 0 to 3, and every sample comes
      from a discard of the left neighbour that the seat could chii. */
  lemma {:induction false} ChiiCellSound(states: seq<GameState>, i: nat, seats: nat)
    requires AllValid(states) && i < Pairs(states) && seats <= 4
    ensures var b := ChiiCell(states, i, seats);
      |b.ys| <= |b.xs| && (forall k :: 0 <= k < |b.ys| ==> 0 <= b.ys[k] <= 3)
      && (forall k :: 0 <= k < |b.xs| ==> ChiiPick(states, b.xs[k]))
  {
    if seats > 0 {
      ChiiCellSound(states, i, seats - 1);
    }
  }

  lemma {:induction false} ChiisSound(states: seq<GameState>, n: nat)
    requires AllValid(states) && n <= Pairs(states)
    ensures var b := Chiis(states, n);
      |b.ys| <= |b.xs| && (forall k :: 0 <= k < |b.ys| ==> 0 <= b.ys[k] <= 3)
      && (forall k :: 0 <= k < |b.xs| ==> ChiiPick(states, b.xs[k]))
  {
    if n > 0 {
      ChiisSound(states, n - 1);
      ChiiCellSound(states, n - 1, 4);
    }
  }

  /** Conversely, every snapshot but the last in which the left neighbour of `p`, not in
      riichi, discarded a kind `p` could chii yields a sample (its label may be missing). */
  lemma {:induction false} ChiisComplete(states: seq<GameState>, n: nat, p: Seat, i: nat)
    requires AllValid(states) && i < n <= Pairs(states) && ChiiOffered(states[i], p)
    ensures Pick(i + 1, i, p) in Chiis(states, n).xs
  {
    if i < n - 1 {
      ChiisComplete(states, n - 1, p, i);
    } else {
      ChiiCellComplete(states, i, 4, p);
    }
  }

  lemma {:induction false} ChiiCellComplete(states: seq<GameState>, i: nat, seats: nat, p: Seat)
    requires AllValid(states) && i < Pairs(states) && p < seats <= 4 && ChiiOffered(states[i], p)
    ensures Pick(i + 1, i, p) in ChiiCell(states, i, seats).xs
  {
    if seats - 1 != p {
      ChiiCellComplete(states, i, seats - 1, p);
    }
  }

  /** A call by the seat with two or more kinds that is not a run through the discard leaves
      its sample without a label, so `x_data` and `y_data` fall out of step; only the seat to
      the discarder's right is ever offered the chii. */
  lemma ChiiSampleWithoutLabel(s: GameState, t: GameState, p: Seat, d: int, tiles: seq<int>)
    requires s.Valid() && t.Valid() && !s.riichi[p]
    requires s.lastAction == Some(Discarded((p + 3) % 4, d)) && CanCallChii(s.hands[p], d) != []
    requires t.lastAction == Some(Called(p, tiles)) && |Distinct(tiles)| > 1
    requires Sort(tiles) != RunTiles(d, 1) && Sort(tiles) != RunTiles(d, 2) && Sort(tiles) != RunTiles(d, 3)
    ensures Chiis([s, t], 1) == Batch([Pick(1, 0, p)], [])
  {
    var states := [s, t];
    forall q: Seat | q != p ensures !ChiiOffered(states[0], q) {
      LeftNeighbourDiffers(p, q);
    }
    assert ChiiLabel(states[1], p, d) == None;
    OnlyOneChii(states, p, 4);
    assert NoSamples<Pick>().Then(ChiiCell(states, 0, 4)) == ChiiCell(states, 0, 4);
  }

  lemma LeftNeighbourDiffers(p: Seat, q: Seat)
    requires p != q
    ensures (p + 3) % 4 != (q + 3) % 4
  {
  }

  /** The snapshot's picks when only seat `p` is offered the chii and its label is missing. */
  lemma {:induction false} OnlyOneChii(states: seq<GameState>, p: Seat, n: nat)
    requires AllValid(states) && 0 < Pairs(states) && n <= 4
    requires forall q: Seat :: q != p ==> !ChiiOffered(states[0], q)
    requires ChiiOffered(states[0], p) && ChiiLabel(states[1], p, states[0].lastAction.value.tile) == None
    ensures ChiiCell(states, 0, n) == if n <= p then NoSamples() else Batch([Pick(1, 0, p)], [])
  {
    if n > 0 {
      OnlyOneChii(states, p, n - 1);
    }
  }

  // ---------------------------------------------------------------------------------------------
  // process_riichis

  /** A snapshot whose last action was taken by `p` while `p`'s hand could declare riichi. */
  predicate RiichiOffered(gs: GameState, p: Seat)
    requires gs.WellSized()
  {
    gs.lastAction.Some? && gs.lastAction.value.player == p && CanCallRiichi(gs.hands[p])
  }

  function RiichiLabel(gs: GameState): int
  {
    Flag(gs.lastAction.Some? && gs.lastAction.value.Declared?)
  }

  function RiichiRow(states: seq<GameState>, p: Seat, n: nat): (b: Batch<Pick>)
    requires AllValid(states) && n <= Pairs(states)
    ensures Picks(states, b.xs)
  {
    if n <= 1 then NoSamples()
    else
      var b := RiichiRow(states, p, n - 1);
      var i := n - 1;
      RenderedAdd(states, b, Pick(i, i - 1, p), Some(RiichiLabel(states[i])));
      if RiichiOffered(states[i], p) then b.Add(Pick(i, i - 1, p), RiichiLabel(states[i])) else b
  }

  function Riichis(states: seq<GameState>, seats: nat): (b: Batch<Pick>)
    requires AllValid(states) && seats <= 4
    ensures Picks(states, b.xs)
  {
    if seats == 0 then NoSamples()
    else
      RenderedThen(states, Riichis(states, seats - 1), RiichiRow(states, seats - 1, Pairs(states)));
      Riichis(states, seats - 1).Then(RiichiRow(states, seats - 1, Pairs(states)))
  }

  /** `process_riichis`: for every seat, every snapshot but the first and the last whose last
      action is this seat's, with a hand that could declare riichi, yields its own view (with
      the snapshot before as previous) and whether that action was the declaration. */
  method ProcessRiichis(states: seq<GameState>, data: Batch<Tensor>) returns (r: Batch<Tensor>)
    requires AllValid(states)
    ensures r == data.Then(Rendered(states, Riichis(states, 4)))
  {
    r := data;
    for player := 0 to 4
      invariant r == data.Then(Rendered(states, Riichis(states, player)))
    {
      ghost var done := data.Then(Rendered(states, Riichis(states, player)));
      for index := 0 to Pairs(states)
        invariant r == done.Then(Rendered(states, RiichiRow(states, player, index)))
      {
        if index >= 1 {
          r := RiichiCandidate(states, done, player, index, r);
        } else {
          RiichiRowNext(states, player, index);
        }
      }
      RenderedThen(states, Riichis(states, player), RiichiRow(states, player, Pairs(states)));
      ThenAssoc(data, Rendered(states, Riichis(states, player)), Rendered(states, RiichiRow(states, player, Pairs(states))));
    }
  }

  /** The body of the inner loop of `process_riichis` for a snapshot after the first. */
  method RiichiCandidate(states: seq<GameState>, ghost done: Batch<Tensor>, player: Seat, index: nat, r: Batch<Tensor>)
    returns (s: Batch<Tensor>)
    requires AllValid(states) && 1 <= index < Pairs(states)
    requires r == done.Then(Rendered(states, RiichiRow(states, player, index)))
    ensures s == done.Then(Rendered(states, RiichiRow(states, player, index + 1)))
  {
    var gs := states[index];
    RiichiRowNext(states, player, index);
    if gs.lastAction.Some? && gs.lastAction.value.player == player && CanCallRiichi(gs.hands[player]) {
      s := AppendSample(states, done, RiichiRow(states, player, index), Pick(index, index - 1, player),
                        Some(if gs.lastAction.value.Declared? then 1 else 0), r);
    } else {
      s := r;
    }
  }

  lemma RiichiRowNext(states: seq<GameState>, p: Seat, i: nat)
    requires AllValid(states) && i < Pairs(states)
    ensures RiichiRow(states, p, i + 1) ==
      if 1 <= i && RiichiOffered(states[i], p)
      then RiichiRow(states, p, i).Add(Pick(i, i - 1, p), RiichiLabel(states[i]))
      else RiichiRow(states, p, i)
  {
  }

  /** A riichi sample of seat `p` at snapshot `i`. */
  predicate RiichiPick(states: seq<GameState>, k: Pick, y: int)
    requires AllValid(states)
  {
    1 <= k.cur < |states| - 1 && k.prev == k.cur - 1 && RiichiOffered(states[k.cur], k.p)
    && y == RiichiLabel(states[k.cur])
  }

  lemma {:induction false} RiichiRowSound(states: seq<GameState>, p: Seat, n: nat)
    requires AllValid(states) && n <= Pairs(states)
    ensures var b := RiichiRow(states, p, n);
      |b.xs| == |b.ys| && forall k :: 0 <= k < |b.xs| ==> b.xs[k].p == p && RiichiPick(states, b.xs[k], b.ys[k])
  {
    if n > 1 {
      RiichiRowSound(states, p, n - 1);
    }
  }

  /** A discard or a call by `p` from a hand of at most 14 tiles leaves fewer than 14, so that
      snapshot offers `p` no riichi: a 0 label needs a hand that held 15 tiles before the action. */
  lemma ActionClosesRiichi(gs: GameState, p: Seat, t: int, tiles: seq<int>)
    requires gs.WellSized() && |gs.hands[p]| <= 14
    ensures t in gs.hands[p] ==> !RiichiOffered(gs.Discard(p, t), p)
    ensures gs.CallPossible(p, tiles) && |tiles| >= 2 ==> !RiichiOffered(gs.Call(p, tiles), p)
  {
  }

  /** Every riichi sample is aligned with its label, and comes from a snapshot where the acting
      seat holds fourteen tiles one exchange away from a complete hand; it is labelled 1 exactly
      when that action was the riichi declaration. */
  lemma RiichisSound(states: seq<GameState>, seats: nat)
    requires AllValid(states) && seats <= 4
    ensures var b := Riichis(states, seats);
      |b.xs| == |b.ys|
      && forall k :: 0 <= k < |b.xs| ==>
           var gs := states[b.xs[k].cur];
           && RiichiPick(states, b.xs[k], b.ys[k])
           && |gs.hands[b.xs[k].p]| == 14 && Tenpai(gs.hands[b.xs[k].p])
           && (b.ys[k] == 1 <==> gs.lastAction == Some(Declared(b.xs[k].p)))
  {
    var b := Riichis(states, seats);
    RiichiPicksSound(states, seats);
    forall k | 0 <= k < |b.xs|
      ensures |states[b.xs[k].cur].hands[b.xs[k].p]| == 14 && Tenpai(states[b.xs[k].cur].hands[b.xs[k].p])
    {
      CanCallRiichiMeaning(states[b.xs[k].cur].hands[b.xs[k].p]);
    }
  }

  lemma {:induction false} RiichiPicksSound(states: seq<GameState>, seats: nat)
    requires AllValid(states) && seats <= 4
    ensures var b := Riichis(states, seats);
      |b.xs| == |b.ys| && forall k :: 0 <= k < |b.xs| ==> RiichiPick(states, b.xs[k], b.ys[k])
  {
    if seats > 0 {
      var a, c := Riichis(states, seats - 1), RiichiRow(states, seats - 1, Pairs(states));
      RiichiPicksSound(states, seats - 1);
      RiichiRowSound(states, seats - 1, Pairs(states));
      var b := a.Then(c);
      forall k | 0 <= k < |b.xs| ensures RiichiPick(states, b.xs[k], b.ys[k]) {
        if k < |a.xs| {
          assert b.xs[k] == a.xs[k] && b.ys[k] == a.ys[k];
        } else {
          assert b.xs[k] == c.xs[k - |a.xs|] && b.ys[k] == c.ys[k - |a.xs|];
        }
      }
    }
  }

  /** Conversely, every snapshot but the first and the last whose last action is `p`'s, with a
      hand that could declare riichi, yields a sample, labelled by whether that action was the
      declaration. */
  lemma {:induction false} RiichisComplete(states: seq<GameState>, seats: nat, p: Seat, i: nat)
    requires AllValid(states) && p < seats <= 4 && 1 <= i < Pairs(states) && RiichiOffered(states[i], p)
    ensures var b := Riichis(states, seats);
      && Pick(i, i - 1, p) in b.xs && |b.xs| == |b.ys|
      && forall k :: 0 <= k < |b.xs| && b.xs[k] == Pick(i, i - 1, p) ==> b.ys[k] == RiichiLabel(states[i])
  {
    RiichiRowComplete(states, p, Pairs(states), i);
    RiichisIncludes(states, seats, p, Pick(i, i - 1, p));
    RiichiPicksSound(states, seats);
  }

  /** A pick of a seat's row is among the picks of every seat from it on. */
  lemma {:induction false} RiichisIncludes(states: seq<GameState>, seats: nat, p: Seat, x: Pick)
    requires AllValid(states) && p < seats <= 4 && x in RiichiRow(states, p, Pairs(states)).xs
    ensures x in Riichis(states, seats).xs
  {
    if seats - 1 != p {
      RiichisIncludes(states, seats - 1, p, x);
    }
    RiichisGrow(states, seats, x);
  }

  /** The picks of the earlier seats and of the last seat's row are all among the picks. */
  lemma RiichisGrow(states: seq<GameState>, seats: nat, x: Pick)
    requires AllValid(states) && 0 < seats <= 4
    ensures x in Riichis(states, seats - 1).xs || x in RiichiRow(states, seats - 1, Pairs(states)).xs
      ==> x in Riichis(states, seats).xs
  {
  }

  lemma {:induction false} RiichiRowComplete(states: seq<GameState>, p: Seat, n: nat, i: nat)
    requires AllValid(states) && 1 <= i < n <= Pairs(states) && RiichiOffered(states[i], p)
    ensures Pick(i, i - 1, p) in RiichiRow(states, p, n).xs
  {
    if i < n - 1 {
      RiichiRowComplete(states, p, n - 1, i);
    }
  }

  // ---------------------------------------------------------------------------------------------
  // process_round

  /** The loop state of `process_round`: the current snapshot, the buffer `gs_list`, the lists
      appended so far, and the exception that ended the round, if any. */
  datatype Replayer = Replayer(gs: Option<GameState>, buffer: seq<GameState>, data: DataSets, failed: Option<Failure>)

  predicate Good(st: Replayer)
  {
    (st.gs.Some? ==> st.gs.value.Valid()) && AllValid(st.buffer)
  }

  /** The four extractors run on a buffer, appending to the four pairs of lists. */
  function Flush(buffer: seq<GameState>, data: DataSets): DataSets
    requires AllValid(buffer)
  {
    DataSets(data.discard.Then(Rendered(buffer, Discards(buffer, 4))), data.pon.Then(Rendered(buffer, Pons(buffer, 4))),
             data.chii.Then(Rendered(buffer, Chiis(buffer, Pairs(buffer)))), data.riichi.Then(Rendered(buffer, Riichis(buffer, 4))))
  }

  /** One iteration of `process_round`'s loop. Nothing happens once a handler has raised. */
  function Step(st: Replayer, n: Node): (r: Replayer)
    requires Good(st) && WellFormed(n)
    ensures Good(r)
  {
    if st.failed.Some? then st
    else
      match PrintNode(n, st.gs)
      case Err(e) => st.(failed := Some(e))
      case Ok(Skip) => st
      case Ok(Update(gs)) => st.(gs := Some(gs))
      case Ok(Record(gs, tag)) =>
        var buffer := st.buffer + [gs];
        if tag == FinishTag then Replayer(Some(gs), [], Flush(buffer, st.data), None)
        else Replayer(Some(gs), buffer, st.data, None)
  }

  /** The loop state after the given records. */
  function Run(start: Replayer, nodes: seq<Node>): (r: Replayer)
    requires Good(start) && forall i :: 0 <= i < |nodes| ==> WellFormed(nodes[i])
    ensures Good(r)
  {
    if nodes == [] then start else Step(Run(start, nodes[..|nodes| - 1]), nodes[|nodes| - 1])
  }

  function Start(data: DataSets): Replayer
  {
    Replayer(None, [], data, None)
  }

  /** `process_round`: the records in order through `print_node`; snapshots with a tag go to the
      buffer, and a finish flushes the buffer into the extractors and empties it. It returns the
      four pairs of lists with whatever was appended to them, and the exception that stopped the
      round, if any. */
  method ProcessRound(nodes: seq<Node>, data: DataSets) returns (d: DataSets, failure: Option<Failure>)
    requires forall i :: 0 <= i < |nodes| ==> WellFormed(nodes[i])
    ensures d == Run(Start(data), nodes).data && failure == Run(Start(data), nodes).failed
  {
    var gs: Option<GameState> := None;
    var buffer: seq<GameState> := [];
    d := data;
    for i := 0 to |nodes|
      invariant Run(Start(data), nodes[..i]) == Replayer(gs, buffer, d, None)
    {
      assert nodes[..i + 1][..i] == nodes[..i];
      var result := PrintNode(nodes[i], gs);
      if result.Err? {
        RunKeepsFailure(Start(data), nodes, i + 1, |nodes|);
        assert nodes[..|nodes|] == nodes;
        return d, Some(result.error);
      }
      match result.value
      case Skip =>
      case Update(g) =>
        gs := Some(g);
      case Record(g, tag) =>
        gs := Some(g);
        buffer := buffer + [g];
        if tag == FinishTag {
          var discard := ProcessDiscards(buffer, d.discard);
          var pon := ProcessPons(buffer, d.pon);
          var chii := ProcessChiis(buffer, d.chii);
          var riichi := ProcessRiichis(buffer, d.riichi);
          d := DataSets(discard, pon, chii, riichi);
          buffer := [];
        }
    }
    assert nodes[..|nodes|] == nodes;
    failure := None;
  }

  /** Once a handler has raised, the later records change nothing. */
  lemma {:induction false} RunKeepsFailure(start: Replayer, nodes: seq<Node>, i: nat, j: nat)
    requires Good(start) && forall k :: 0 <= k < |nodes| ==> WellFormed(nodes[k])
    requires i <= j <= |nodes| && Run(start, nodes[..i]).failed.Some?
    ensures Run(start, nodes[..j]) == Run(start, nodes[..i])
    decreases j
  {
    if j > i {
      RunKeepsFailure(start, nodes, i, j - 1);
      assert nodes[..j][..j - 1] == nodes[..j - 1];
    }
  }

  /** `INIT` and `DORA` replace the snapshot but never reach the buffer or the lists. */
  lemma UpdatesNotBuffered(st: Replayer, n: Node)
    requires Good(st) && WellFormed(n) && st.failed.None? && (n.Init? || n.DoraReveal?)
    ensures Step(st, n).buffer == st.buffer && Step(st, n).data == st.data
  {
  }

  /** A finish empties the buffer after handing it, finish snapshot included, to the
      extractors; every other tagged snapshot is appended to the buffer. */
  lemma FinishFlushes(st: Replayer, n: Node)
    requires Good(st) && WellFormed(n) && st.failed.None? && st.gs.Some?
    requires InRound(n) && !n.DoraReveal?
    ensures var r := Step(st, n);
      r.failed.None? ==>
        if n.Agari? || n.Ryuukyoku? then
          r.buffer == [] && r.data == Flush(st.buffer + [r.gs.value], st.data) && r.gs.value.finished
        else
          r.buffer == st.buffer + [r.gs.value] && r.data == st.data
  {
    var out := PrintNode(n, st.gs);
    assert out == Handle(n, st.gs.value);
  }

  /** The lists only grow: everything appended before is still there, in order. */
  predicate Extends(a: Batch<Tensor>, b: Batch<Tensor>)
  {
    |a.xs| <= |b.xs| && b.xs[..|a.xs|] == a.xs && |a.ys| <= |b.ys| && b.ys[..|a.ys|] == a.ys
  }

  predicate ExtendsAll(a: DataSets, b: DataSets)
  {
    Extends(a.discard, b.discard) && Extends(a.pon, b.pon) && Extends(a.chii, b.chii) && Extends(a.riichi, b.riichi)
  }

  lemma ThenExtends(a: Batch<Tensor>, b: Batch<Tensor>)
    ensures Extends(a, a.Then(b))
  {
    assert (a.xs + b.xs)[..|a.xs|] == a.xs;
    assert (a.ys + b.ys)[..|a.ys|] == a.ys;
  }

  lemma ExtendsTrans(a: Batch<Tensor>, b: Batch<Tensor>, c: Batch<Tensor>)
    requires Extends(a, b) && Extends(b, c)
    ensures Extends(a, c)
  {
    assert c.xs[..|a.xs|] == c.xs[..|b.xs|][..|a.xs|];
    assert c.ys[..|a.ys|] == c.ys[..|b.ys|][..|a.ys|];
  }

  lemma ExtendsRefl(a: Batch<Tensor>)
    ensures Extends(a, a)
  {
    assert a.xs[..|a.xs|] == a.xs && a.ys[..|a.ys|] == a.ys;
  }

  lemma ExtendsAllTrans(a: DataSets, b: DataSets, c: DataSets)
    requires ExtendsAll(a, b) && ExtendsAll(b, c)
    ensures ExtendsAll(a, c)
  {
    ExtendsTrans(a.discard, b.discard, c.discard);
    ExtendsTrans(a.pon, b.pon, c.pon);
    ExtendsTrans(a.chii, b.chii, c.chii);
    ExtendsTrans(a.riichi, b.riichi, c.riichi);
  }

  /** A flush only appends. */
  lemma FlushExtends(buffer: seq<GameState>, data: DataSets)
    requires AllValid(buffer)
    ensures ExtendsAll(data, Flush(buffer, data))
  {
    ThenExtends(data.discard, Rendered(buffer, Discards(buffer, 4)));
    ThenExtends(data.pon, Rendered(buffer, Pons(buffer, 4)));
    ThenExtends(data.chii, Rendered(buffer, Chiis(buffer, Pairs(buffer))));
    ThenExtends(data.riichi, Rendered(buffer, Riichis(buffer, 4)));
  }

  /** One record either leaves the lists alone or flushes the buffer into them. */
  lemma StepExtends(st: Replayer, n: Node)
    requires Good(st) && WellFormed(n)
    ensures ExtendsAll(st.data, Step(st, n).data)
  {
    var r := Step(st, n);
    if r.data == st.data {
      ExtendsRefl(st.data.discard);
      ExtendsRefl(st.data.pon);
      ExtendsRefl(st.data.chii);
      ExtendsRefl(st.data.riichi);
    } else {
      var out := PrintNode(n, st.gs);
      assert st.failed.None? && out.Ok? && out.value.Record? && out.value.tag == FinishTag;
      FlushExtends(st.buffer + [out.value.gs], st.data);
    }
  }

  /** Across a whole round the lists only grow. */
  lemma {:induction false} RunExtends(start: Replayer, nodes: seq<Node>)
    requires Good(start) && forall i :: 0 <= i < |nodes| ==> WellFormed(nodes[i])
    ensures ExtendsAll(start.data, Run(start, nodes).data)
  {
    if nodes == [] {
      ExtendsRefl(start.data.discard);
      ExtendsRefl(start.data.pon);
      ExtendsRefl(start.data.chii);
      ExtendsRefl(start.data.riichi);
    } else {
      var prefix := nodes[..|nodes| - 1];
      RunExtends(start, prefix);
      StepExtends(Run(start, prefix), nodes[|nodes| - 1]);
      ExtendsAllTrans(start.data, Run(start, prefix).data, Run(start, nodes).data);
    }
  }

}
