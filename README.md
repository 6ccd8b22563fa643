# GameController: a verified model of the memorize-and-place game

This project is a Dafny model of `GameController`, the component that runs a memory game built with Unity.

The table has ten slots: 0–4 on the top of the table (the display half) and 5–9 under it (the storage half). The player places up to five objects on these slots. The game goes through these rounds:

1. memorize round 1;
2. play round 1;
3. memorize round 2;
4. play round 2;
5. two test rounds.

The rounds are driven by the integer `currentRound`, which takes these values:

| value | phase |
|---|---|
| 0 | ready |
| 1, 3 | memorize |
| 2, 4 | play |
| 5, 6 | test |
| 7 | over |

In a memorize phase, the objects are laid out on a random permutation of the display slots. That layout is copied as the round's solution. The objects are then scrambled onto a storage permutation, redrawn until no object's storage slot is in the same class (`slot % 5`) as its solution slot. In the play and test phases, the player drags objects back. A released object snaps to the nearest free slot within 0.3 units. When the phase's timer runs out, the objects lying on their solution slot on the display half are counted into `roundScores[currentRound]`.

The model is split into modules that follow the parts of the component:

- `Slots`: the ten slots, the slot class as C#'s `%` computes it, and what a well-formed placement is.
- `FisherYates`: `GenerateRandomIndices`, the in-place Fisher–Yates shuffle of a slot range.
  - The random draws are an input: draw `k` lies in `0..k`, because `Random.Range(int, int)` excludes its upper bound.
  - It is proved to produce a permutation of the range, and every permutation can be produced.
- `Rejection`: `AreAllPositionsDifferent` and the `do … while` loops that redraw the storage placement until the test passes.
  - The loops exit with a permutation of 5–9 whose classes differ, object by object, from the reference.
  - Every display permutation admits such a draw.
- `Scoring`: the counting rule of `CalculateCorrectPositions`, and its bounds and extreme cases.
- `Rounds`: the transitions of `currentRound`, which solution each scored round uses, and the phase order that the comment on the `currentRound` field (`GameController.cs:26`) gives.
- `Snap`: the release branch of drag and drop.
  - It scans the slots, keeps the strictly nearest free slot, and commits it only within the snap distance.
  - Ties go to the lowest slot index, and injectivity of the placement is preserved.
- `Game`: the `GameController` class.
  - Its fields are the component's own: the placement arrays, `currentRound`, `roundScores`, `draggedObjectIndex` and `isDragging`.
  - It has one method per step of the game.
  - Its invariant `Valid()` collects what holds in every round:
    - which arrays exist;
    - each placement is injective on real slots;
    - the recorded solutions are display permutations;
    - the memorize layout matches the solution it records;
    - every score lies in `[0, objectCount]`, and a score that is not yet written is 0.

Each coroutine is cut at the points where the engine resumes it, and each cut becomes an explicit step:

| coroutine | steps |
|---|---|
| `MemorizeRound` | `EnterMemorize` (called from `OnBtnStartClick` and `OnBtnNextClick`), then `MemorizeTimeUp` |
| `GameRound` | `RoundTimeUp` |
| `TestRound` | `EnterTest`, then `RoundTimeUp` |

Each frame's `Update` receives its mouse input as a value (`MouseInput`). Random draws arrive as parameters (`Draws`).

## Model

| member | source | states |
|---|---|---|
| Slots.SlotClass | Assets/src/GameController.cs:245-246 | `slot % 5` with C#'s truncating remainder: always in (-5, 5), with the sign of the slot; a display slot is its own class and storage slot s has class s - 5 |
| FisherYates.ShuffleDown | Assets/src/GameController.cs:228-234 | the swap loop from index i down to 1 keeps the length of the list |
| FisherYates.SwapPermutes | Assets/src/GameController.cs:231-233 | one swap of `indices[i]` and `indices[j]` keeps the multiset of the list |
| FisherYates.ShuffleDownPermutes | Assets/src/GameController.cs:228-234 | any run of the swap loop is a permutation of the list it starts from |
| FisherYates.ShuffleDownFrame | Assets/src/GameController.cs:228-234 | proof lemma for ShuffleIsOnto: the swap loop down from i uses only the draws at indices 0..i |
| FisherYates.SwapTowards | Assets/src/GameController.cs:230-233 | proof lemma for ShuffleDownReaches: swapping the target's element i, found at some j <= i, into position i makes the list agree with the target from i on and keeps the prefixes before i rearrangements of each other |
| FisherYates.ShuffleDownReaches | Assets/src/GameController.cs:228-234 | every rearrangement of the list that keeps everything after i in place is reached by some valid draws for steps i..1, which the lemma returns |
| FisherYates.IndexIn | Assets/src/GameController.cs:230 | proof lemma for ShuffleIsOnto, a fact about lists rather than about this line: a member of a list sits at some index below its length |
| FisherYates.ShuffleIsOnto | Assets/src/GameController.cs:219-237 | every permutation of the starting list is the outcome of some valid draws |
| FisherYates.Map | Assets/src/GameController.cs:228-234 | helper for ShuffleDownMap and RejectionCanSucceed, not a step of the source: relabelling the elements of a list keeps its length |
| FisherYates.ShuffleDownMap | Assets/src/GameController.cs:228-234 | the draws act on positions only: relabelling the elements commutes with the shuffle |
| FisherYates.DistinctMultiplicity | Assets/src/GameController.cs:221-225 | proof lemma for DistinctFromMultiset and Game.FilledSlotsArePermutation, a fact about lists: in a list without repeats every member occurs once |
| FisherYates.DistinctFromMultiset | Assets/src/GameController.cs:219-237 | a permutation of a list without repeats has no repeats |
| FisherYates.RangeFacts | Assets/src/GameController.cs:221-225 | the list built by the fill loop has length e - s + 1, no repeats, and holds exactly s..e |
| FisherYates.PermutationOfRangeFacts | Assets/src/GameController.cs:219-237 | a permutation of s..e has length e - s + 1, no repeats, and holds exactly s..e |
| FisherYates.GenerateRandomIndices | Assets/src/GameController.cs:219-237 | the returned array has length e - s + 1, equals the Fisher–Yates shuffle of [s..e] under the given draws, and is a permutation of s..e |
| Rejection.AreAllPositionsDifferent | Assets/src/GameController.cs:240-250 | true exactly when `arr1[i] % 5 != arr2[i] % 5` for every i < arr1.Length |
| Rejection.DrawOnce | Assets/src/GameController.cs:112-115 | one pass of the loop body and test: the draw's storage shuffle, a permutation of 5..9, together with the test's verdict against the reference |
| Rejection.DrawUntilAllDifferent | Assets/src/GameController.cs:112-115 | the loop stops at the first accepted draw: the result is a permutation of 5..9 whose classes differ object-wise from the reference, it is `FirstAcceptedDraw` of the draws, and every earlier draw was rejected |
| Rejection.AcceptedInTail | Assets/src/GameController.cs:112-115 | when the first draw is rejected, an accepted draw remains among the later ones, so the loop goes on |
| Rejection.FirstAcceptedDraw | Assets/src/GameController.cs:112-115 | the storage placement the do-while ends with, defined draw by draw; its classes differ object-wise from the reference |
| Rejection.FirstAcceptedDrawAt | Assets/src/GameController.cs:112-115 | if draw k is accepted and every earlier draw is rejected, the do-while ends with draw k's shuffle |
| Rejection.NeighbourPlacementPermutes | Assets/src/GameController.cs:112-115 | moving each object of a display permutation to the storage slot of its neighbour's class yields a permutation of 5..9 |
| Rejection.ShiftedDisplayPermutes | Assets/src/GameController.cs:112-115 | the neighbour relabelling of [0..4] is a permutation of 5..9 |
| Rejection.ShiftedDisplay | Assets/src/GameController.cs:112-115 | the neighbour relabelling maps [0, 1, 2, 3, 4] to [6, 7, 8, 9, 5] |
| Rejection.StorageRange | Assets/src/GameController.cs:114 | the storage range 5..9 is the list [5, 6, 7, 8, 9] |
| Rejection.RejectionCanSucceed | Assets/src/GameController.cs:112-115 | for every reference that is a permutation of 0..4, some valid draws pass the class test, so the loop can always exit |
| Rejection.ScrambleExampleDraws | Assets/src/GameController.cs:240-250 | against solution [2, 0, 4, 1, 3], the draw [7, 5, 9, 6, 8] is rejected and [5, 9, 6, 8, 7] is accepted |
| Rejection.NeighbourClassDiffers | Assets/src/GameController.cs:245-247 | a display slot and the storage slot of its neighbour's class never share a class |
| Scoring.Score | Assets/src/GameController.cs:259-266 | the count over the first n objects never exceeds n |
| Scoring.ScoreCountsScoringObjects | Assets/src/GameController.cs:259-266 | the count is exactly the number of objects i < n with `currentSlotIndices[i] < 5 && currentSlotIndices[i] == correctIndices[i]` |
| Scoring.SolutionScoresFull | Assets/src/GameController.cs:262 | a placement equal to a solution on display slots scores every object |
| Scoring.StorageScoresZero | Assets/src/GameController.cs:262 | a placement with every object on the storage half scores nothing |
| Scoring.ScoreAtMostDisplayed | Assets/src/GameController.cs:262 | the count never exceeds the number of objects on display slots |
| Rounds.NextRound | Assets/src/GameController.cs:78-103 | `onBtnNextClick` always moves forward from rounds 0..6, lands on 3, 5, 6 or 7, and stays short of game over (7) exactly from rounds 2, 4 and 5; the single arrows 2 -> 3, 4 -> 5, 5 -> 6 are pinned by `Rounds.TransitionsFollowPhaseTable` |
| Rounds.SolutionRound | Assets/src/GameController.cs:255-257 | the round-1 solution is used exactly when `currentRound` is 2 or 5 |
| Rounds.TransitionsFollowPhaseTable | Assets/src/GameController.cs:74-104 | start, the end of memorize and next follow the phase order of the `currentRound` comment (line 26): ready, memorize 1, play 1, memorize 2, play 2, test 1, test 2, over |
| Rounds.ScoredPhasesUseTheirSolution | Assets/src/GameController.cs:300-303 | drags run exactly in the play and test phases, and each of them is scored against its own round's solution |
| Snap.NearestFreeUnique | Assets/src/GameController.cs:368-375 | at most one slot is the nearest free slot, so ties go to the lowest index |
| Snap.AfterRelease | Assets/src/GameController.cs:379-389 | a release changes only the dragged object's slot, and only to a free real slot within the snap distance |
| Snap.ReleaseKeepsPlacement | Assets/src/GameController.cs:380-383 | a placement that was injective on real slots stays so after a release |
| Snap.ReleaseWithoutNearbySlotReverts | Assets/src/GameController.cs:385-389 | with no free slot within the snap distance (or no free slot at all) the placement is unchanged |
| Snap.ScanDecidesRelease | Assets/src/GameController.cs:380-389 | the commit test `nearestSlotIndex != -1 && minDistance <= snapDistance` gives exactly `Snap.AfterRelease` |
| Snap.FindNearestFreeSlot | Assets/src/GameController.cs:351-377 | the scan returns -1 (with `float.MaxValue`) exactly when no free slot is closer than `float.MaxValue`; otherwise the first free slot of least distance, and that distance |
| Game.ReleaseWithoutPressIsNoOp | Assets/src/GameController.cs:346 | a release with no drag in progress and no press changes nothing |
| Game.DrawMemorizeLayout | Assets/src/GameController.cs:109-125 | the display draw, the first storage draw whose classes differ object-wise from it (`FirstAcceptedDraw`), and a separate copy of the display draw |
| Game.DrawTestLayout | Assets/src/GameController.cs:176-186 | a fresh storage placement filling 5..9, the first draw whose classes differ object-wise from the solution under test (`FirstAcceptedDraw`) |
| Game.PermutationFillsSlots | Assets/src/GameController.cs:219-237 | a permutation of lo..hi fills lo..hi: right length, no repeats, every entry in range |
| Game.FilledSlotsArePermutation | Assets/src/GameController.cs:219-237 | the converse: a list filling lo..hi is a permutation of lo..hi, so `FillsSlots` and the multiset form say the same |
| Game.MemorizeCanStart | Assets/src/GameController.cs:109-115 | for every display draw some storage draws are accepted, so every memorize phase can start |
| Game.TestCanStart | Assets/src/GameController.cs:176-186 | for every solution filling 0..4 some storage draws are accepted, so every test phase can start |
| Game.FilledSlotsArePlacement | Assets/src/GameController.cs:19 | such a placement puts the objects on real slots, one per slot |
| Game.Clone | Assets/src/GameController.cs:120 | `Clone` returns a fresh array with the same contents |
| Game.GameController.constructor | Assets/src/GameController.cs:24-31 | round 0, nothing dragged, all seven scores 0, no placement arrays yet |
| Game.GameController.EnterMemorize | Assets/src/GameController.cs:108-125 | the callers' own step of `currentRound` (0 to 1 at line 68, 2 to 3 at line 83) is applied first, so the round goes up by one; the placement is the fresh display draw, recorded as a separate copy into the round-1 solution (round 1) or the round-2 solution (round 3); the storage placement is the first accepted draw; `correctCount`, the scores and the drag state are unchanged; the invariant holds |
| Game.GameController.OnBtnStartClick | Assets/src/GameController.cs:66-72 | round 0 becomes 1, the display draw is laid out and recorded as solution 1, the storage placement is the first accepted draw, scores and `correctCount` untouched, nothing is dragged |
| Game.GameController.MemorizeTimeUp | Assets/src/GameController.cs:138-149 | the placement becomes a copy of the storage placement, the round goes from memorize to play (1 to 2, 3 to 4), and that placement scores 0 |
| Game.GameController.CalculateCorrectPositions | Assets/src/GameController.cs:252-269 | the count of objects on their solution's display slot, using the solution the round selects, within [0, objectCount] |
| Game.GameController.RoundTimeUp | Assets/src/GameController.cs:163-206 | at the end of GameRound (lines 163-166) and of TestRound (lines 201-206): the score of the current round, still 0 until now, is written to `roundScores[currentRound]` (in bounds) with no other entry changing, and the result dialog is shown |
| Game.GameController.EnterTest | Assets/src/GameController.cs:171-190 | the round goes 4 to 5 or 5 to 6; the placement is the very array `initialIndices` (aliased), the first accepted draw against that round's solution, filling 5..9 with classes differing from it; both solutions, `correctCount`, the scores and the drag state are unchanged |
| Game.GameController.OnBtnNextClick | Assets/src/GameController.cs:74-104 | the round becomes `NextRound` of the old one, followed by the memorize or test set-up it starts, with its first accepted draw; solution 1 and `correctCount` are unchanged, and so is solution 2 except when round 2 records it; at game over the placement arrays are kept and the saved scores are `roundScores[2]`, `[4]`, `[5]`, `[6]`; scores unchanged; the invariant holds |
| Game.GameController.ReleaseDrag | Assets/src/GameController.cs:346-394 | the placement becomes `Snap.AfterRelease` of the old one; `isDragging` is false and `draggedObjectIndex` is -1; the invariant, including injectivity, holds |
| Game.GameController.HandleDragAndDrop | Assets/src/GameController.cs:306-395 | a press on object i starts dragging it, a release while dragging resolves the snap, and otherwise the placement is unchanged |
| Game.GameController.Update | Assets/src/GameController.cs:298-304 | drags are handled only in rounds 2, 4, 5 and 6; in every other round nothing changes |

## Left out

- Rendering and transforms are not modelled: `UpdateObjectPositions`, the `slotPositions` coordinates, and moving the dragged object while the button is held are scene plumbing with no effect on the placement.
- Input capture and hit-testing (`Input.GetMouseButton*`, `Physics.Raycast`, the camera) are engine calls. The model takes each frame's button transitions, the index of the object hit, and the distance from the dragged object to each slot as the input `MouseInput`.
- `Vector3.Distance` and float rounding are not modelled: distances are real numbers. `float.MaxValue` and `0.3f` are their exact `float` values.
- Coroutine timers (`Time.deltaTime`, `WaitForSeconds`) are engine scheduling. Each elapsed timer becomes an explicit step.
- MemorizeTimeUp: the copy of `initialIndices` and `currentRound++` form one step. The wait between them (the white screen) allows no drag and no button.
- UI text and the white screen are not modelled, and neither is `Start`. Of the dialogs, only `resultDlg`'s visibility is kept (`resultShown`), because its button is how `onBtnNextClick` is reached.
- `SaveScoresToFile` is file I/O. The model returns the four scores it writes, in its order.
- Game.GameController.OnBtnNextClick: assumes the score file is written. In the source, `File.WriteAllText` (`GameController.cs:294`) has no handler. If it throws (for example, a read-only data path or a full disk), `currentRound = 7` (line 100) never runs. The game then stays at round 6 with `resultDlg` already hidden (line 76), so no button is left. The model always moves from round 6 to 7.
- `Random.Range`'s entropy is not modelled: the draws are parameters.
- Termination of the rejection loops is probabilistic. The model requires that one of the supplied draws is accepted, and `Game.MemorizeCanStart` and `Game.TestCanStart` prove that such draws exist for every display draw and every recorded solution.
- `GameConfig` is not part of this model: it holds three durations and has no behaviour.
- Game.GameController.constructor: requires at most five objects. With more, the source indexes past the five-entry placement arrays.
- Rejection.AreAllPositionsDifferent: requires `arr1.Length <= arr2.Length`. The source raises an index error otherwise, and every call passes two five-entry arrays.
- `resultDlg.SetActive(false)`, the first statement of `onBtnNextClick`, is applied on each of its branches. That keeps the class invariant's statement about unwritten scores. The observable effect is the same.
