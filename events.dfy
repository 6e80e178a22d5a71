/** The parsed log nodes the replay consumes, and `print_node` with its `_print_*` handlers,
    which turn each node into a transition of the snapshot. */
module Events {
  import opened Wrappers
  import opened Tiles
  import opened Game

  /** A node of the log, as the parser hands it over (tile fields are physical tiles 0..135). */
  datatype Node =
    | Go
    | Un
    | Taikyoku
    | Shuffle
    | Init(hands: seq<seq<Instance>>, dora: Instance, scores: seq<int>, round: int, oya: int)
    | DoraReveal(hai: Instance)
    | Draw(player: Seat, tile: Instance)
    | Discard(player: Seat, tile: Instance)
    | Call(caller: Seat, callee: Seat, callType: string, mentsu: seq<Instance>)
    | Reach(player: Seat, step: int)
    | Agari(scores: seq<int>, gains: seq<int>)
    | Ryuukyoku(scores: seq<int>, gains: seq<int>)
    | Bye
    | Resume
    | Other(tag: string)

  /** What the parser guarantees of a record: four hands and four scores at the start of a
      round, a round number from 0 on, and four scores and four gains at its end. */
  predicate WellFormed(n: Node)
  {
    match n
    case Init(hands, _, scores, round, _) => |hands| == 4 && |scores| == 4 && 0 <= round
    case Agari(scores, gains) => |scores| == 4 && |gains| == 4
    case Ryuukyoku(scores, gains) => |scores| == 4 && |gains| == 4
    case _ => true
  }

  /** The action tag `print_node` pairs with a new snapshot. */
  datatype Tag = DrawTag | DiscardTag | CallTag | RiichiTag | FinishTag

  /** `print_node`'s result: `None`, `(gs, None)`, or `(gs, tag)`. */
  datatype Outcome =
    | Skip
    | Update(gs: GameState)
    | Record(gs: GameState, tag: Tag)

  /** The exceptions the handlers raise: `NotImplementedError`, the `ValueError` of a
      `list.remove` that finds nothing, a handler reached before any `INIT` (no snapshot to
      call into), and the `IndexError` of a kan without tiles. */
  datatype Failure = NotImplemented | MissingTile | NoGame | EmptyMeld

  /** `[x + y for x, y in zip(scores, gains)]`: pairwise sums, as long as the shorter list. */
  function AddGains(scores: seq<int>, gains: seq<int>): (r: seq<int>)
    ensures |r| == if |scores| <= |gains| then |scores| else |gains|
    ensures forall i :: 0 <= i < |r| ==> r[i] == scores[i] + gains[i]
  {
    if scores == [] || gains == [] then []
    else [scores[0] + gains[0]] + AddGains(scores[1..], gains[1..])
  }

  /** One dealt hand: `[t // 4 for t in sorted(hand)]`, the kinds of its tiles in ascending order. */
  function DealtHand(h: seq<Instance>): (k: seq<int>)
    ensures AllKinds(k) && Sorted(k) && multiset(k) == multiset(KindsOf(h))
  {
    var sorted := Sort(h);
    forall j | 0 <= j < |sorted| ensures 0 <= sorted[j] < 4 * KINDS {
      assert sorted[j] in multiset(h);
    }
    KindsOfSorted(sorted);
    KindsOfPermutation(sorted, h);
    KindsOf(sorted)
  }

  /** The four dealt hands. */
  function DealtHands(hands: seq<seq<Instance>>): (r: seq<seq<int>>)
    requires |hands| == 4
    ensures |r| == 4 && PilesOfKinds(r)
    ensures forall i :: 0 <= i < 4 ==> r[i] == DealtHand(hands[i])
  {
    seq(4, i requires 0 <= i < 4 => DealtHand(hands[i]))
  }

  /** `_print_init`: each hand dealt in ascending kind order, the dora indicator's kind, no red
      fives, and the record's scores, round and dealer. */
  function InitState(hands: seq<seq<Instance>>, dora: Instance, scores: seq<int>, round: int, oya: int)
    : (gs: GameState)
    requires |hands| == 4 && |scores| == 4 && 0 <= round
    ensures gs.Valid() && gs.lastAction == None && !gs.finished && gs.hands == DealtHands(hands)
    ensures gs.dora == [KindOf(dora)] && gs.scores == scores && gs.kyoku == round && gs.dealer == oya
  {
    NewState(DealtHands(hands), [[], [], [], []], [KindOf(dora)], scores, round, oya)
  }

  /** `_print_call`: an added kan, or any call the caller makes on itself, goes to `make_kan`;
      every other call, an open kan on another seat's discard included, goes to `make_call`. */
  function CallOutcome(gs: GameState, caller: Seat, callee: Seat, callType: string, mentsu: seq<Instance>)
    : (r: Result<Outcome, Failure>)
    requires gs.Valid()
    ensures r.Ok? ==> r.value.Record? && r.value.tag == CallTag && r.value.gs.Valid()
    ensures callType == "KaKan" || caller == callee ==>
      (r.Ok? <==> mentsu != []) && (r.Ok? ==> r.value.gs == gs.Kan(caller, KindsOf(mentsu)))
    ensures callType != "KaKan" && caller != callee ==>
      (r.Ok? <==> gs.CallPossible(caller, KindsOf(mentsu)))
      && (r.Ok? ==> r.value.gs == gs.Call(caller, KindsOf(mentsu)))
  {
    var tiles := KindsOf(mentsu);
    if callType == "KaKan" || caller == callee then
      if tiles == [] then Err(EmptyMeld) else Ok(Record(gs.Kan(caller, tiles), CallTag))
    else if gs.CallPossible(caller, tiles) then Ok(Record(gs.Call(caller, tiles), CallTag))
    else Err(MissingTile)
  }

  /** The records that act on the current snapshot: a dora reveal, a draw, a discard, a call,
      a reach of step 1 or 2, and the two ways a round ends. */
  predicate InRound(n: Node)
  {
    n.DoraReveal? || n.Draw? || n.Discard? || n.Call? || (n.Reach? && (n.step == 1 || n.step == 2))
    || n.Agari? || n.Ryuukyoku?
  }

  /** The handlers `_dora`, `_draw`, `_discard`, `_call`, `_reach`, `_agari` and `_ryuukyoku`
      applied to a snapshot. A reach of step 2 is the old snapshot again. */
  function Handle(n: Node, gs: GameState): (r: Result<Outcome, Failure>)
    requires InRound(n) && WellFormed(n) && gs.Valid()
    ensures r.Ok? ==> !r.value.Skip? && r.value.gs.Valid()
    ensures r.Ok? && r.value.Update? <==> n.DoraReveal?
    ensures n.Reach? && n.step == 2 ==> r == Ok(Record(gs, RiichiTag))
    ensures r.Err? ==> r.error == MissingTile || r.error == EmptyMeld
    ensures r.Ok? && r.value.Record? ==> (r.value.tag == FinishTag <==> n.Agari? || n.Ryuukyoku?)
    ensures n.Discard? ==> (r.Ok? <==> KindOf(n.tile) in gs.hands[n.player])
    ensures n.Agari? || n.Ryuukyoku? ==>
      r == Ok(Record(gs.Finish(AddGains(n.scores, n.gains), n.gains), FinishTag))
  {
    match n
    case Reach(player, step) =>
      if step == 1 then Ok(Record(gs.Riichi(player), RiichiTag)) else Ok(Record(gs, RiichiTag))
    case DoraReveal(hai) => Ok(Update(gs.Dora(KindOf(hai))))
    case Draw(player, tile) => Ok(Record(gs.Draw(player, KindOf(tile)), DrawTag))
    case Discard(player, tile) =>
      if KindOf(tile) in gs.hands[player] then Ok(Record(gs.Discard(player, KindOf(tile)), DiscardTag))
      else Err(MissingTile)
    case Call(caller, callee, callType, mentsu) => CallOutcome(gs, caller, callee, callType, mentsu)
    case Agari(scores, gains) => Ok(Record(gs.Finish(AddGains(scores, gains), gains), FinishTag))
    case Ryuukyoku(scores, gains) => Ok(Record(gs.Finish(AddGains(scores, gains), gains), FinishTag))
  }

  /** `print_node`. The first `if` on `GO` and `UN` does nothing and they fall into the second
      chain's `else`, so they raise like any tag the chain does not know; `TAIKYOKU`, `SHUFFLE`,
      `BYE` and `RESUME` yield nothing; `INIT` and `DORA` yield a snapshot with no action tag;
      the rest yield a snapshot and their tag. A reach of a step other than 1 and 2 raises, and
      so does any handler that finds no snapshot yet. */
  function PrintNode(n: Node, gs: Option<GameState>): (r: Result<Outcome, Failure>)
    requires WellFormed(n) && (gs.Some? ==> gs.value.Valid())
    ensures r.Ok? && !r.value.Skip? ==> r.value.gs.Valid()
    ensures r.Ok? && r.value.Skip? <==> n.Taikyoku? || n.Shuffle? || n.Bye? || n.Resume?
    ensures r.Ok? && r.value.Update? <==> n.Init? || (n.DoraReveal? && gs.Some?)
    ensures n.Go? || n.Un? || n.Other? || (n.Reach? && n.step != 1 && n.step != 2) ==> r == Err(NotImplemented)
    ensures InRound(n) ==> if gs.None? then r == Err(NoGame) else r == Handle(n, gs.value)
  {
    match n
    case Go => Err(NotImplemented)
    case Un => Err(NotImplemented)
    case Other(_) => Err(NotImplemented)
    case Taikyoku => Ok(Skip)
    case Shuffle => Ok(Skip)
    case Bye => Ok(Skip)
    case Resume => Ok(Skip)
    case Init(hands, dora, scores, round, oya) => Ok(Update(InitState(hands, dora, scores, round, oya)))
    case Reach(_, step) =>
      if step != 1 && step != 2 then Err(NotImplemented) else if gs.None? then Err(NoGame) else Handle(n, gs.value)
    case DoraReveal(_) => if gs.None? then Err(NoGame) else Handle(n, gs.value)
    case Draw(_, _) => if gs.None? then Err(NoGame) else Handle(n, gs.value)
    case Discard(_, _) => if gs.None? then Err(NoGame) else Handle(n, gs.value)
    case Call(_, _, _, _) => if gs.None? then Err(NoGame) else Handle(n, gs.value)
    case Agari(_, _) => if gs.None? then Err(NoGame) else Handle(n, gs.value)
    case Ryuukyoku(_, _) => if gs.None? then Err(NoGame) else Handle(n, gs.value)
  }

  /** A finished round's snapshot holds each seat's score plus its gain, the gains, and the flag. */
  lemma FinishAccounting(n: Node, gs: GameState)
    requires (n.Agari? || n.Ryuukyoku?) && WellFormed(n) && gs.Valid()
    ensures PrintNode(n, Some(gs)).Ok?
    ensures var after := PrintNode(n, Some(gs)).value.gs;
      && after.finished && after.gains == Some(n.gains) && |after.scores| == 4
      && (forall i :: 0 <= i < 4 ==> after.scores[i] == n.scores[i] + n.gains[i])
  {
  }

  /** The finish scores are built from the record's own scores, not from the snapshot's: they are
      the snapshot's scores plus the gains exactly when the record repeats the snapshot's scores. */
  lemma FinishIgnoresSnapshotScores(n: Node, gs: GameState)
    requires (n.Agari? || n.Ryuukyoku?) && WellFormed(n) && gs.Valid()
    ensures var after := PrintNode(n, Some(gs)).value.gs;
      (forall i :: 0 <= i < 4 ==> after.scores[i] == gs.scores[i] + n.gains[i]) <==> n.scores == gs.scores
  {
    FinishAccounting(n, gs);
    var after := PrintNode(n, Some(gs)).value.gs;
    if forall i :: 0 <= i < 4 ==> after.scores[i] == gs.scores[i] + n.gains[i] {
      assert forall i :: 0 <= i < 4 ==> n.scores[i] == gs.scores[i];
    }
  }

  /** A discard record whose tile is not in the hand aborts the replay. */
  lemma DiscardOfMissingTile(gs: GameState, p: Seat, tile: Instance)
    requires gs.Valid() && tile / 4 !in gs.hands[p]
    ensures PrintNode(Discard(p, tile), Some(gs)) == Err(MissingTile)
  {
  }
}
