/** The integer `currentRound` that drives the game, and what each value means:
    0 ready, 1 memorize (round 1), 2 play (round 1), 3 memorize (round 2), 4 play (round 2),
    5 test (round 1), 6 test (round 2), 7 over. */
module Rounds {

  const Ready: int := 0
  const Over: int := 7

  /** roundScores has one entry per value below 7, indexed by currentRound. */
  const ScoreEntries: int := 7

  /** The rounds in which Update calls HandleDragAndDrop; they are also the rounds that are scored. */
  predicate DragEnabled(round: int) {
    round == 2 || round == 4 || round == 5 || round == 6
  }

  /** onBtnNextClick: 2 -> 3, 4 -> 5, 5 -> 6, and every other value -> 7. */
  function NextRound(round: int): (next: int)
    ensures 0 <= round < Over ==> round < next
    ensures next == 3 || next == 5 || next == 6 || next == Over
    ensures next < Over <==> round == 2 || round == 4 || round == 5
  {
    if round == 2 then 3
    else if round == 4 then 5
    else if round == 5 then 6
    else Over
  }

  /** Which recorded solution CalculateCorrectPositions compares against (1 or 2). */
  function SolutionRound(round: int): (k: int)
    ensures k == 1 || k == 2
    ensures k == 1 <==> round == 2 || round == 5
  {
    if round < 5 then (if round == 2 then 1 else 2)
    else (if round == 5 then 1 else 2)
  }

  /** The phases that the comment on the currentRound field (GameController.cs:26) gives its
      values, each memorize, play and test phase numbered by the round (1 or 2) whose solution
      it uses. */
  datatype Phase = ReadyPhase | Memorize(k: int) | Play(k: int) | Test(k: int) | Complete

  /** The phase each value of currentRound stands for. */
  function PhaseOf(round: int): Phase
    requires Ready <= round <= Over
  {
    if round == 0 then ReadyPhase
    else if round == 1 then Memorize(1)
    else if round == 2 then Play(1)
    else if round == 3 then Memorize(2)
    else if round == 4 then Play(2)
    else if round == 5 then Test(1)
    else if round == 6 then Test(2)
    else Complete
  }

  /** The order of the phases in that comment: ready, memorize 1, play 1, memorize 2, play 2,
      test 1, test 2, complete. */
  function PhaseAfter(p: Phase): Phase {
    match p
    case ReadyPhase => Memorize(1)
    case Memorize(k) => Play(k)
    case Play(k) => if k == 1 then Memorize(2) else Test(1)
    case Test(k) => if k == 1 then Test(2) else Complete
    case Complete => Complete
  }

  /** The coded transitions follow the phase order of the currentRound comment: start (0 -> 1), the end of memorize
      (currentRound + 1 from 1 or 3) and onBtnNextClick from each scored round. */
  lemma TransitionsFollowPhaseTable()
    ensures PhaseOf(1) == PhaseAfter(PhaseOf(Ready))
    ensures forall r :: r == 1 || r == 3 ==> PhaseOf(r + 1) == PhaseAfter(PhaseOf(r))
    ensures forall r :: DragEnabled(r) ==> PhaseOf(NextRound(r)) == PhaseAfter(PhaseOf(r))
  {
  }

  /** Drags are handled exactly in the play and test phases, and each scored phase is compared
      with the solution of its own round. */
  lemma ScoredPhasesUseTheirSolution(r: int)
    requires Ready <= r <= Over
    ensures DragEnabled(r) <==> PhaseOf(r).Play? || PhaseOf(r).Test?
    ensures DragEnabled(r) ==> SolutionRound(r) == PhaseOf(r).k
  {
  }
}
