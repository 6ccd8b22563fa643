/** CalculateCorrectPositions' counting rule: an object scores when it sits on a display slot
    that is exactly its slot in the recorded solution. */
module Scoring {
  import opened Slots

  /** Object i scores: currentSlotIndices[i] < 5 and currentSlotIndices[i] == correctIndices[i]. */
  predicate Scores(placement: seq<int>, solution: seq<int>, i: int)
    requires 0 <= i < |placement| && i < |solution|
  {
    placement[i] < DisplaySlotCount && placement[i] == solution[i]
  }

  /** The number of scoring objects among the first n. */
  function Score(placement: seq<int>, solution: seq<int>, n: nat): (count: nat)
    requires n <= |placement| && n <= |solution|
    ensures count <= n
  {
    if n == 0 then 0
    else Score(placement, solution, n - 1) + (if Scores(placement, solution, n - 1) then 1 else 0)
  }

  /** The objects that score, as a set. */
  function ScoringObjects(placement: seq<int>, solution: seq<int>, n: nat): set<int>
    requires n <= |placement| && n <= |solution|
  {
    set i | 0 <= i < n && Scores(placement, solution, i)
  }

  /** The count is exactly the number of objects i < n on their own display slot. */
  lemma {:induction false} ScoreCountsScoringObjects(placement: seq<int>, solution: seq<int>, n: nat)
    requires n <= |placement| && n <= |solution|
    ensures Score(placement, solution, n) == |ScoringObjects(placement, solution, n)|
  {
    if n > 0 {
      ScoreCountsScoringObjects(placement, solution, n - 1);
      var before := ScoringObjects(placement, solution, n - 1);
      if Scores(placement, solution, n - 1) {
        assert ScoringObjects(placement, solution, n) == before + {n - 1};
      } else {
        assert ScoringObjects(placement, solution, n) == before;
      }
    }
  }

  /** A placement equal to the solution, which lies on display slots, scores every object. */
  lemma {:induction false} SolutionScoresFull(solution: seq<int>, n: nat)
    requires n <= |solution|
    requires forall i :: 0 <= i < n ==> IsDisplaySlot(solution[i])
    ensures Score(solution, solution, n) == n
  {
    if n > 0 {
      SolutionScoresFull(solution, n - 1);
    }
  }

  /** A placement with every object on the storage half scores nothing. */
  lemma {:induction false} StorageScoresZero(placement: seq<int>, solution: seq<int>, n: nat)
    requires n <= |placement| && n <= |solution|
    requires forall i :: 0 <= i < n ==> placement[i] >= DisplaySlotCount
    ensures Score(placement, solution, n) == 0
  {
    if n > 0 {
      StorageScoresZero(placement, solution, n - 1);
    }
  }

  /** The objects sitting on display slots. */
  function DisplayedObjects(placement: seq<int>, n: nat): set<int>
    requires n <= |placement|
  {
    set i | 0 <= i < n && IsDisplaySlot(placement[i])
  }

  /** Only objects on display slots can score: the count never exceeds their number. */
  lemma {:induction false} ScoreAtMostDisplayed(placement: seq<int>, solution: seq<int>, n: nat)
    requires n <= |placement| && n <= |solution|
    requires forall i :: 0 <= i < n ==> 0 <= placement[i]
    ensures Score(placement, solution, n) <= |DisplayedObjects(placement, n)|
  {
    if n > 0 {
      ScoreAtMostDisplayed(placement, solution, n - 1);
      var before := DisplayedObjects(placement, n - 1);
      if IsDisplaySlot(placement[n - 1]) {
        assert DisplayedObjects(placement, n) == before + {n - 1};
      } else {
        assert DisplayedObjects(placement, n) == before;
      }
    }
  }
}
