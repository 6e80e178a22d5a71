# Replay state and training-sample extraction of a Tenhou log

This project models the replay core of a Riichi Mahjong learning pipeline. The pipeline
replays the parsed records of a Tenhou game log and builds a snapshot of the table (`GameState`)
after every draw, discard, call, riichi declaration and round end. From each round's finish it
extracts four supervised data sets: which tile a seat discards, whether it calls pon, which
chii it takes, and whether it declares riichi. Every sample is a seat's rotated view of a
snapshot, encoded as 43 planes of 34 tile rows by 4 columns (`PlayerState.make_data`). The
riichi gate is the tenpai search `can_call_riichi` / `_riichi_test`. The same search appears in
the stand-alone `riichitest.py`, together with five example hands.

Modules, in dependency order:

- `Wrappers` (`wrappers.dfy`): `Option` and `Result`.
- `Tiles` (`tiles.dfy`): tile kinds 0..33 and physical tiles 0..135 (`t // 4`). Also Python's
  `sorted`, `list.remove`, `list.count` and `set(...)` on kinds, as functions with contracts.
- `Shapes` (`shapes.dfy`): `tiles_in_the_same_family`, `can_call_pon` and `can_call_chii`.
- `Riichi` (`riichi.dfy`): `_riichi_test` and `can_call_riichi`, including the Counter-based
  seven-pairs clause and the thirteen-orphans clause exactly as written.
- `HandShapes` (`hand_shapes.dfy`): a search-order-free meaning of `_riichi_test`. Every
  accepted hand is made of groups (at most one pair, triplets, one-family runs), optionally
  followed by a remainder that meets the seven-pairs or the orphan clause. Conversely, every
  sorted hand made of such groups is accepted, whatever its grouping.
- `RiichiExamples` (`riichi_examples.dfy`): the five example hands of `riichitest.py`, and the
  boundary cases of the orphan clause.
- `Encoding` (`player_state.dfy`): the seat view, the plane layout as a reference function
  `Encode`, and the class `PlayerState`. Its `make_data` and `fill_*` methods write into a
  `array3<int>` and are proved to produce `Encode` cell by cell.
- `Game` (`game_state.dfy`): `GameState` as an immutable datatype. The source deep-copies the
  state before every transition, so value semantics is exact. It holds the `make_*`
  transitions, the in-place loops of `make_call` and `make_kan` proved against their functions,
  ranks, winds and `get_player_state`.
- `Events` (`events.dfy`): the parsed record types, the `_print_*` handlers and `print_node`,
  with the exceptions they raise as a `Failure` result.
- `Replay` (`replay.dfy`): `process_round` and the four extractors. Each is a method with
  nested loops, proved to append exactly the samples of a recursive specification. That
  specification's soundness and completeness are proved separately.

## Model

| member | source | states |
|---|---|---|
| Shapes.SameFamily | tenhou_log_utils/state.py:322-323 | definition of `tiles_in_the_same_family`; its meaning is `Shapes.SameFamilyMeaning` |
| Shapes.SameFamilyMeaning | tenhou_log_utils/state.py:322-323 | the family test holds iff some argument is suited (below 27) and all suited arguments share the suit `x // 9` |
| Shapes.FamilyQuirks | tenhou_log_utils/state.py:322-323 | honours are ignored: East-South-West is no family, while 8-9 of souzu followed by East (25, 26, 27), and 9 of souzu with East and South (26, 27, 28), count as one |
| Shapes.CanCallPon | tenhou_log_utils/state.py:115-116 | definition of `can_call_pon`; its meaning is `Shapes.PonMeaning` |
| Shapes.PonMeaning | tenhou_log_utils/state.py:115-116 | a pon is legal iff two distinct positions of the hand hold the discarded kind |
| Shapes.CanCallChii | tenhou_log_utils/state.py:118-131 | the returned positions are strictly ascending, and position k is listed iff the run with the discard at position k has its two other kinds in the hand and is one family |
| Shapes.RunOthersInHand | tenhou_log_utils/state.py:118-131 | a callable run contains the discard, and the hand supplies its other two kinds |
| Shapes.ChiiExamples | tenhou_log_utils/state.py:118-131 | a 4 against 2,3,5,6 is callable at all three positions; East against 8-9 of souzu at position 3; West against East-South at none |
| Riichi.CanCallRiichi | tenhou_log_utils/state.py:326-339 | definition of `can_call_riichi`; its meaning is `Riichi.CanCallRiichiMeaning` |
| Riichi.CanCallRiichiMeaning | tenhou_log_utils/state.py:326-339 | `can_call_riichi` holds iff the hand has 14 tiles and trading one of its tiles for one of the 34 kinds, then sorting, gives a hand `_riichi_test` accepts |
| Riichi.CompletesReady | tenhou_log_utils/state.py:326-339 | a single completing trade is enough for `can_call_riichi` |
| Riichi.CanCallRiichiPermutation | riichitest.py:4-17 | the answer depends only on the multiset of the hand, not on its order |
| Riichi.SearchRemovedMeaning | tenhou_log_utils/state.py:330-337 | the outer loop over the hand's tiles finds a completing trade iff one exists from that position on |
| Riichi.SearchAddedMeaning | tenhou_log_utils/state.py:331-337 | the inner loop over the 34 kinds finds a completing kind iff one exists from that kind on |
| Riichi.CandidateTiles | tenhou_log_utils/state.py:332-335 | the candidate hand holds the old tiles with one copy of the removed tile traded for the added kind |
| Riichi.FirstOccurrences | tenhou_log_utils/state.py:348 | the keys of the Counter are exactly the hand's kinds, each listed once |
| Riichi.SevenPairsMeaning | tenhou_log_utils/state.py:348-349 | the Counter clause holds iff the hand has exactly seven distinct kinds, each held twice |
| Riichi.PeelRun | tenhou_log_utils/state.py:366-370 | removing the head run leaves a sorted hand three tiles shorter, without one copy each of x, x+1, x+2 |
| Riichi.AllThirteenOrphansMissClause | tenhou_log_utils/state.py:351-352 | a hand holding all thirteen orphan kinds fails the orphan clause unless it is the bare thirteen-tile list |
| Riichi.TwelveOrphansAccepted | tenhou_log_utils/state.py:351-352 | exactly twelve orphan kinds accept the hand whatever its other tiles are |
| Riichi.OrphanListAccepted | tenhou_log_utils/state.py:351-352 | the literal thirteen-orphan list is accepted |
| Riichi.SevenPairsAccepted | tenhou_log_utils/state.py:348-349 | seven pairs are accepted whether or not a pair was already taken |
| Riichi.RiichiTest | tenhou_log_utils/state.py:342-374 | definition of `_riichi_test`; its meaning is `HandShapes.RiichiSound` and `HandShapes.RiichiComplete` |
| Riichi.BaseCases | tenhou_log_utils/state.py:343-346 | the empty hand is complete, one tile never is, and two tiles are complete iff they are equal and no pair was taken yet |
| HandShapes.RiichiSound | tenhou_log_utils/state.py:342-374 | every hand `_riichi_test` accepts is made of groups (at most one pair, runs one family), optionally followed by a remainder that meets the seven-pairs or the orphan clause |
| HandShapes.RiichiComplete | tenhou_log_utils/state.py:342-374 | every sorted hand that is a standard shape is accepted, whatever its grouping: the head-first search loses no grouping |
| HandShapes.LowestGroupFirst | tenhou_log_utils/state.py:354-372 | in a standard shape, some group that contains the lowest tile can be taken first and leaves a standard shape |
| HandShapes.StandardIsComplete | tenhou_log_utils/state.py:342-374 | a standard shape is a complete shape |
| HandShapes.GroupsStandard | tenhou_log_utils/state.py:354-372 | any list of valid groups (one-family runs, at most one pair) makes a standard shape |
| HandShapes.TenpaiFromShape | tenhou_log_utils/state.py:326-339 | a 14-tile hand that becomes a standard shape after one trade may declare riichi |
| HandShapes.TenpaiShape | tenhou_log_utils/state.py:326-339 | conversely, a hand that may declare riichi has 14 tiles, and one of its tiles traded for some kind gives a complete shape |
| RiichiExamples.ExampleLine59 | riichitest.py:59-60 | pairs of 0..5 with 6 and 7 are ready (seven pairs after trading 7 for 6) |
| RiichiExamples.ExampleLine62 | riichitest.py:62-63 | thirteen orphans plus a 5 are ready (twelve orphan kinds after trading 0 for 5) |
| RiichiExamples.ExampleLine65 | riichitest.py:65-66 | twelve orphan kinds with a second 32 and a 5 are ready |
| RiichiExamples.ExampleLine68 | riichitest.py:68-69 | 0 0 2 2 3 4 4 4 5 6 7 6 7 8 is ready (runs 0-1-2, 2-3-4, 5-6-7, 6-7-8, pair 4-4 after trading a 0 for a 1) |
| RiichiExamples.ExampleLine71 | riichitest.py:71-72 | four 1-2-3 runs and the 4-4 pair are ready |
| RiichiExamples.TripletsAndPairAccepted | riichitest.py:39-41 | 1 1 1 2 2 2 3 3 3 4 4 4 5 5 is accepted through four triplet peels and the pair 5-5 |
| RiichiExamples.TripletsWaitOnFive | riichitest.py:4-17 | triplets of 1 to 4 and a single 5, in any order, with a drawn 5 may declare riichi |
| RiichiExamples.SevenPairsWait | riichitest.py:59-60 | the first example in any order is ready |
| RiichiExamples.ThirteenOrphansAndFive | riichitest.py:62-63 | the second example in any order is ready |
| RiichiExamples.TwelveOrphansPairAndFive | riichitest.py:65-66 | the third example in any order is ready |
| RiichiExamples.RunsWaitOnOne | riichitest.py:68-69 | the fourth example in any order is ready |
| RiichiExamples.FourRunsAndPair | riichitest.py:71-72 | the fifth example in any order is ready |
| RiichiExamples.ThirteenOrphanKindsRejected | riichitest.py:20-52 | a sorted hand with all thirteen orphan kinds, a single 0 and no 1 is rejected, so a thirteen-orphans hand paired above 0 is not complete |
| RiichiExamples.NoSpecialClause | riichitest.py:26-30 | thirteen orphan kinds in fourteen tiles meet neither special clause |
| RiichiExamples.ThirteenOrphansPairedOnZero | riichitest.py:20-52 | with the pair on 0 the same kinds are accepted (pair peeled, then twelve orphan kinds) |
| Tiles.RemoveEachSpec | tenhou_log_utils/state.py:89-90 | removing the called tiles one by one succeeds iff they are a sub-multiset of the hand, and leaves the multiset difference |
| Tiles.KindsOfPermutation | tenhou_log_utils/state.py:543 | taking kinds of two lists holding the same tiles gives the same multiset of kinds |
| Tiles.SortIsCanonical | tenhou_log_utils/state.py:335 | sorting depends only on the multiset of the list |
| Tiles.SortedUnique | tenhou_log_utils/state.py:335 | a sorted list is determined by its multiset |
| Game.NewState | tenhou_log_utils/state.py:21-35 | the given hands, red fives, dora, scores, kyoku and dealer; empty discard and stolen piles; no riichi, last discard, last action or gains; not finished; valid iff the inputs are |
| Game.GameState.Draw | tenhou_log_utils/state.py:56-60 | the kind is appended to the seat's unsorted hand; the last action is cleared; nothing else changes |
| Game.GameState.Discard | tenhou_log_utils/state.py:62-69 | one copy leaves the hand, which is then sorted; the kind ends the discard pile and becomes the last discard and last action; nothing else changes |
| Game.GameState.Riichi | tenhou_log_utils/state.py:71-75 | only the seat's riichi flag is set, and the declaration is the last action |
| Game.GameState.Dora | tenhou_log_utils/state.py:77-81 | the indicator is appended and the last action cleared; nothing else changes |
| Game.GameState.Finish | tenhou_log_utils/state.py:106-113 | the finished flag with the given scores and gains; the last action cleared; nothing else changes |
| Game.GameState.Call | tenhou_log_utils/state.py:83-93 | the called tiles join the stolen pile; the hand loses the called tiles minus one copy of the last discard; the call is the last action; nothing else changes |
| Game.GameState.MakeCall | tenhou_log_utils/state.py:83-93 | the copy-and-remove loop computes `Call` |
| Game.GameState.Kan | tenhou_log_utils/state.py:95-104 | the stolen pile is topped up to four copies of the first tile's kind (kept if four or more), every copy of that kind leaves the hand, other kinds keep their counts, and the last action is cleared |
| Game.GameState.MakeKan | tenhou_log_utils/state.py:95-104 | the two `while` loops compute `Kan` |
| Game.GameState.RoundWind | tenhou_log_utils/state.py:137-138 | East (0) iff the kyoku is below 4, South (1) otherwise |
| Game.GameState.Rank | tenhou_log_utils/state.py:140-146 | the scan of the sorted seats returns the seat's place in the stable ascending sort of the scores |
| Game.StableOrder | tenhou_log_utils/state.py:141-142 | definition of the stable sort of the seats by score; its meaning is `Game.StableOrderSpec` |
| Game.RankOf | tenhou_log_utils/state.py:140-146 | definition of `_get_player_rank`; its meaning is `Game.RankOrder` and `Game.RankCounts` |
| Game.RankOrder | tenhou_log_utils/state.py:140-146 | ranks are 0..3, distinct for distinct seats, and a seat sorting earlier ranks lower |
| Game.RankCounts | tenhou_log_utils/state.py:140-146 | the rank counts the seats sorting before: lower score, or equal score and lower seat |
| Game.StableOrderSpec | tenhou_log_utils/state.py:141-142 | the stable sort lists every seat once, in score order with ties by seat |
| Game.GameState.View | tenhou_log_utils/state.py:37-54 | the seat's own hand and red fives; discards, stolen piles and riichi flags rotated so the viewer comes first; its rank; the round wind; and the own wind, counted from the dealer |
| Game.GameState.GetPlayerState | tenhou_log_utils/state.py:37-54 | a fresh, unencoded `PlayerState` holding `View(p)` and the given previous state |
| Game.Rotate | tenhou_log_utils/state.py:38-40 | the viewer's pile first, then the piles of the seats after it, in seat order |
| Game.RotateBack | tenhou_log_utils/state.py:38-40 | rotating back by the remaining distance restores the piles |
| Game.DealerIsEast | tenhou_log_utils/state.py:52 | the own wind is East iff the seat is the dealer |
| Game.PonEnablesCall | tenhou_log_utils/state.py:115-116 | a legal pon on the last discard is a call `make_call` can carry out, and it leaves two tiles fewer in the hand |
| Game.ChiiEnablesCall | tenhou_log_utils/state.py:118-131 | a chii position `can_call_chii` reports is a call `make_call` can carry out, and it leaves two tiles fewer in the hand |
| Game.DiscardKeepsSight | tenhou_log_utils/state.py:62-69 | a discard keeps the copies of every kind in sight (hands, discard piles, stolen piles, dora indicators) |
| Game.CallShowsDiscardTwice | tenhou_log_utils/state.py:83-93 | a call adds one copy of the called discard to what is in sight: it stays in the discarder's pile and joins the caller's stolen pile |
| Game.PonBreaksFourCopies | tenhou_log_utils/state.py:83-93 | a concrete pon after which five copies of one kind are in sight |
| Encoding.Encode | tenhou_log_utils/state.py:187-211 | the encoding has 43 planes of 34 rows of 4 columns, each cell given by the plane layout |
| Encoding.CellsAreBits | tenhou_log_utils/state.py:187-211 | every cell is 0 or 1, and without a previous view planes 29 to 42 stay 0 |
| Encoding.TileRowMeaning | tenhou_log_utils/state.py:288-293 | a tile plane's row holds min(copies, 4) ones, all in the leading columns |
| Encoding.OneHotPlanes | tenhou_log_utils/state.py:269-278 | exactly one rank plane is set (the rank's) and exactly one kyoku plane (the kyoku's, clamped to 7) |
| Encoding.WindRows | tenhou_log_utils/state.py:280-286 | the wind planes each set exactly the row of the round's, and of the seat's, wind tile |
| Encoding.FilledFromZeros | tenhou_log_utils/state.py:289-293 | an empty row filled n times holds min(n, 4) leading ones |
| Encoding.SnapshotOfEncoding | tenhou_log_utils/state.py:187-211 | an array that agrees with `Encode` cell by cell holds exactly the encoding |
| Encoding.RecordTile | tenhou_log_utils/state.py:290-293 | recording a tile sets the first unset column of its row; every other cell is kept |
| Encoding.FillPlaneTiles | tenhou_log_utils/state.py:288-293 | each row has been filled once per copy of its kind; on a clear plane that is the tile encoding; other planes are kept |
| Encoding.TilesOnClearPlane | tenhou_log_utils/state.py:288-293 | a clear plane filled row by row holds the tile encoding |
| Encoding.FillPlaneTilesRows | tenhou_log_utils/state.py:295-298 | every listed kind's whole row is set; other rows and planes are kept |
| Encoding.FillPlaneValue | tenhou_log_utils/state.py:300-301 | the whole plane takes the value; other planes are kept |
| Encoding.FillPlanesTiles | tenhou_log_utils/state.py:225-229 | the four planes from `p` hold the four piles' tile encodings |
| Encoding.FillPlanesFlags | tenhou_log_utils/state.py:257-261 | the four planes from `p` hold the four flags |
| Encoding.PlayerState.constructor | tenhou_log_utils/state.py:170-185 | the view and previous state given, no array yet, cursor at plane 0 |
| Encoding.PlayerState.FillHand | tenhou_log_utils/state.py:213-215 | the cursor's plane holds the hand; the cursor moves one plane; other planes are kept |
| Encoding.PlayerState.FillLastHand | tenhou_log_utils/state.py:217-219 | the cursor's plane holds the previous view's hand |
| Encoding.PlayerState.FillRedFives | tenhou_log_utils/state.py:221-223 | the rows of the red-five kinds are set on the cursor's plane |
| Encoding.PlayerState.FillDiscards | tenhou_log_utils/state.py:225-229 | the four planes from the cursor hold the rotated discard piles |
| Encoding.PlayerState.FillLastDiscards | tenhou_log_utils/state.py:231-235 | the four planes from the cursor hold the previous view's discard piles |
| Encoding.PlayerState.FillStolenTiles | tenhou_log_utils/state.py:237-241 | the four planes from the cursor hold the rotated stolen piles |
| Encoding.PlayerState.FillLastStolenTiles | tenhou_log_utils/state.py:243-247 | the four planes from the cursor hold the previous view's stolen piles |
| Encoding.PlayerState.FillDoraIndicators | tenhou_log_utils/state.py:249-251 | the cursor's plane holds the dora indicators |
| Encoding.PlayerState.FillLastDoraIndicators | tenhou_log_utils/state.py:253-255 | the cursor's plane holds the previous view's dora indicators |
| Encoding.PlayerState.FillRiichi | tenhou_log_utils/state.py:257-261 | the four planes from the cursor hold the rotated riichi flags |
| Encoding.PlayerState.FillLastRiichi | tenhou_log_utils/state.py:263-267 | the four planes from the cursor hold the previous view's riichi flags |
| Encoding.PlayerState.FillRank | tenhou_log_utils/state.py:269-272 | only the rank's plane of the four is set; the cursor moves four planes |
| Encoding.PlayerState.FillKyoku | tenhou_log_utils/state.py:274-278 | only the plane of min(kyoku, 7) of the eight is set; the cursor moves eight planes |
| Encoding.PlayerState.FillRoundWind | tenhou_log_utils/state.py:280-282 | the round wind's tile row is set on the cursor's plane |
| Encoding.PlayerState.FillOwnWind | tenhou_log_utils/state.py:284-286 | the own wind's tile row is set on the cursor's plane |
| Encoding.PlayerState.FillCurrent | tenhou_log_utils/state.py:193-202 | the blocks of the view itself fill planes 0 to 28 with the encoding |
| Encoding.PlayerState.FillPrevious | tenhou_log_utils/state.py:204-209 | the blocks of the previous view fill planes 29 to 42 with the encoding |
| Encoding.PlayerState.MakeData | tenhou_log_utils/state.py:187-211 | the cached array when there is one; otherwise a fresh array whose every cell equals `Encode(view, previous view)`; the cursor ends at 29 planes, or 43 with a previous state |
| Events.AddGains | tenhou_log_utils/state.py:710 | pairwise sums, as long as the shorter list |
| Events.DealtHand | tenhou_log_utils/state.py:543 | a dealt hand becomes its kinds in ascending order, holding the same kinds as its tiles |
| Events.InitState | tenhou_log_utils/state.py:518-546 | the dealt hands, the dora indicator's kind, the scores, round and dealer; no last action; not finished; valid |
| Events.CallOutcome | tenhou_log_utils/state.py:564-576 | a kakan or self-call goes to `make_kan` (fails iff the meld is empty); any other call goes to `make_call` (fails iff the call cannot be carried out) |
| Events.Handle | tenhou_log_utils/state.py:550-747 | the handlers: only a dora reveal yields a snapshot without a tag; a reach of step 2 returns the old snapshot; only a finish carries the finish tag; a discard fails iff its kind is not in the hand; a finish adds gains to scores |
| Events.PrintNode | tenhou_log_utils/state.py:756-797 | four bookkeeping tags yield nothing; `INIT` and a dora reveal yield an untagged snapshot; `GO`, `UN`, unknown tags and a reach of another step raise; a round record before any `INIT` fails; others are the handlers |
| Events.FinishAccounting | tenhou_log_utils/state.py:710-711 | a finish yields a finished snapshot with the gains and each score plus its gain |
| Events.FinishIgnoresSnapshotScores | tenhou_log_utils/state.py:710-711 | the finish scores equal the snapshot's scores plus the gains iff the record's scores are the snapshot's |
| Events.DiscardOfMissingTile | tenhou_log_utils/state.py:557-560 | a discard of a tile not in the hand aborts the replay |
| Replay.TakeSample | tenhou_log_utils/state.py:854-856 | the two player states and `make_data` yield the sample `Encode(current view, previous view)` |
| Replay.ProcessDiscards | tenhou_log_utils/state.py:843-857 | the lists grow by exactly the discard samples of the recursive specification, seat by seat and snapshot by snapshot |
| Replay.DiscardsSound | tenhou_log_utils/state.py:843-857 | every discard sample is aligned with its label and pairs the view before a discard outside riichi with the discarded kind |
| Replay.DiscardsComplete | tenhou_log_utils/state.py:843-857 | conversely, every such discard from the third snapshot on yields a sample |
| Replay.ProcessPons | tenhou_log_utils/state.py:860-874 | the lists grow by exactly the pon samples of the specification |
| Replay.PonsSound | tenhou_log_utils/state.py:860-874 | every pon sample is aligned, comes from another seat's discard the seat could pon outside riichi, and is labelled 0 or 1 by whether the next snapshot is its call |
| Replay.PonsComplete | tenhou_log_utils/state.py:860-874 | conversely, every snapshot but the last with another seat's discard that the seat could pon outside riichi yields a sample, labelled 1 iff the next snapshot is a call by that seat |
| Replay.ChiiLabelledAsPon | tenhou_log_utils/state.py:870-874 | a chii by that seat on a discard it could also pon is labelled as a pon (1) |
| Replay.ChiiLabel | tenhou_log_utils/state.py:888-903 | the label is 0 iff the next snapshot is not a call by the seat of at least two distinct kinds; for such a call it is k (1..3) iff the sorted called tiles are the run with the discard at position k, and missing iff they are none of the three runs |
| Replay.ProcessChiis | tenhou_log_utils/state.py:877-903 | the lists grow by exactly the chii samples of the specification, snapshot by snapshot and seat by seat |
| Replay.ChiisSound | tenhou_log_utils/state.py:877-903 | labels never outnumber samples, every label is 0..3, and every sample comes from the left neighbour's discard the seat could chii outside riichi |
| Replay.ChiisComplete | tenhou_log_utils/state.py:877-887 | conversely, every snapshot but the last with the left neighbour's discard that the seat could chii outside riichi yields a sample |
| Replay.ChiiSampleWithoutLabel | tenhou_log_utils/state.py:888-901 | a two-kind call that is not a run through the discard appends a sample without a label |
| Replay.ProcessRiichis | tenhou_log_utils/state.py:906-920 | the lists grow by exactly the riichi samples of the specification |
| Replay.RiichisSound | tenhou_log_utils/state.py:906-920 | every riichi sample is aligned, comes from a 14-tile tenpai hand of the acting seat, and is labelled 1 iff that action was the declaration |
| Replay.RiichisComplete | tenhou_log_utils/state.py:906-920 | conversely, every snapshot but the first and the last whose last action is the seat's, with a hand that could declare riichi, yields a sample labelled 1 iff that action was the declaration |
| Replay.ActionClosesRiichi | tenhou_log_utils/state.py:62-93 | a discard, or a call of two or more tiles, by a seat holding at most 14 tiles leaves a snapshot that offers it no riichi |
| Replay.Step | tenhou_log_utils/state.py:807-840 | definition of one iteration of `process_round`; keeps the loop state good; its meaning is `Replay.FinishFlushes`, `Replay.UpdatesNotBuffered` and `Replay.StepExtends` |
| Replay.Run | tenhou_log_utils/state.py:800-840 | definition of `process_round`'s loop as a fold of `Step`; keeps the loop state good; its meaning is `Replay.RunKeepsFailure` and `Replay.RunExtends` |
| Replay.ProcessRound | tenhou_log_utils/state.py:800-840 | the loop yields the data sets and the failure of the fold `Run` over the records |
| Replay.RunKeepsFailure | tenhou_log_utils/state.py:800-840 | once a handler has raised, no later record changes anything |
| Replay.UpdatesNotBuffered | tenhou_log_utils/state.py:811-816 | `INIT` and dora reveals change neither the buffer nor the data sets |
| Replay.FinishFlushes | tenhou_log_utils/state.py:820-840 | a finish hands the buffer, its own snapshot included, to the four extractors and empties it; other tagged snapshots are appended to it |
| Replay.FlushExtends | tenhou_log_utils/state.py:834-837 | a flush only appends to the lists |
| Replay.StepExtends | tenhou_log_utils/state.py:808-840 | one record leaves the lists alone or appends to them |
| Replay.RunExtends | tenhou_log_utils/state.py:800-840 | across a round the lists only grow: earlier samples stay in place and order |

## Left out

- Logging: every `_LG.info` call, the Unicode tile rendering and the result printing are output only.
- The numpy array of `make_data` is `array3<int>`; the `int8` element type plays no part, since every cell is 0 or 1.
- The XML parser that produces the records is not part of this model. A record is a `Node` value, and the model assumes the parser guarantees the following:
  - `WellFormed`: four hands and four scores at `INIT`, a round number of 0 or more, and four scores and four gains at a finish;
  - the field types: every seat is in 0..3 (`Seat`) and every physical tile is in 0..135 (`Instance`).
  The source does not check these. A round number from -8 to -1 would make `fill_kyoku` pick a plane from the end of its block through `arr[kyoku]`, and a negative seat would index the per-seat lists from their end; a lower round number, or a seat above 3, raises `IndexError`. The model does not cover such records.
- The scores and gains of a finish are kept as given. The `ba`, `ten`, `result` and `reason` fields only feed the log output and are not modelled.
- `formidable_opponents` is the fixed list `[0, 1, 2, 3]` in `process_round`, so the extractors iterate over all four seats. The gain-based filter is commented out in the source.
- The red-five lists are always empty: `_print_init` passes `[[]] * 4`. The model keeps the field, and `FillRedFives`, for any contents. The four aliased empty lists are never mutated, so the aliasing is not modelled.
- `assert new_gs is not None` in `process_round` fails in exactly one case: a `REACH` record of step 2 that comes before any `INIT`. `_print_reach` then returns the missing snapshot, and `print_node` pairs it with the riichi tag. The model reports that record, like every other round record before `INIT`, as the failure `NoGame`, in place of the `AssertionError` (or, for the other handlers, the `AttributeError` on `None`). Every outcome the model accepts carries a snapshot.
- The sample lists hold tensor values (`Encode` of the views). The source appends the numpy arrays themselves; each is fresh and is never written again after `make_data`.
- `GameState` methods that only print (`__str__` and the like) are output only and not modelled.
- Replay.ProcessRound: the source lets the exception propagate out of `process_round`. The model stops at the first raising record and returns the lists as they were, together with the `Failure`.

Where the code does something other than its documentation suggests, the model follows the code:

- `tiles_in_the_same_family` ignores honours. Three honours are therefore no family, while 8-9 of souzu followed by East (25, 26, 27) counts as one. A run of `_riichi_test` or a chii can run into the honours.
- A called discard stays in the discarder's pile and also joins the caller's stolen pile. "At most four copies of a kind in sight" is therefore not an invariant of the state (`Game.CallShowsDiscardTwice`, `Game.PonBreaksFourCopies`).
- `GO` and `UN` are matched by a first `if` that does nothing. They then fall into the second chain's `else` and raise `NotImplementedError`.
- `process_pons` labels any call by the seat as 1, a chii included.
- A round's finish snapshot is meant to hold the round's initial scores plus the reported gains. The code instead adds the gains to the finish record's own `scores` (`_print_agari`, `_print_ryuukyoku`), and `make_finish` overwrites the snapshot's scores with the sums. A step-2 `REACH` returns the snapshot unchanged, so a riichi deposit never reaches the snapshot's scores. The documented relation therefore holds only when the record repeats the snapshot's scores (`Events.FinishAccounting` for the code, `Events.FinishIgnoresSnapshotScores` for the condition).
- `process_riichis` appends a 0 label only when the seat's hand has 14 tiles right after its own discard or call. In a legal game that never happens: a hand has 14 tiles only after a draw, which clears the last action, or at the step-1 declaration, which is labelled 1. A discard or a call from at most 14 tiles leaves no riichi offer (`Replay.ActionClosesRiichi`).
- `process_chiis` appends a sample without a label when the seat's call of two or more kinds is not a run through the discard. `x_data` and `y_data` then fall out of step.
- A thirteen-orphans hand whose duplicate is above 0 is rejected by `_riichi_test`. A hand paired on 0 is accepted, through the pair and the twelve-kind clause. `can_call_riichi` still accepts thirteen-orphan waits, because some trade reaches the twelve-kind clause.
- The twelve-kind orphan clause accepts a hand whatever its other tiles are.
