/** The GameController component: the round state machine, the placement of the objects on the
    slots, the two recorded solutions, the score board and drag handling.
    Each coroutine of the game is cut into the steps the engine resumes it at: the part before
    its first wait runs inside the call that starts it, and each elapsed timer is a step of its own. */
module Game {
  import opened Slots
  import opened FisherYates
  import opened Rejection
  import opened Scoring
  import opened Rounds
  import opened Snap

  /** The random draws one memorize or test phase consumes: the Fisher-Yates choices for the display
      placement (memorize only), and the successive draws of the storage placement tried by the
      do-while until one passes AreAllPositionsDifferent. */
  datatype Draws = Draws(display: seq<int>, storage: seq<seq<int>>)

  /** The display placement that the choices `c` give: GenerateRandomIndices(0, 4). */
  function DisplayDraw(c: seq<int>): seq<int>
    requires ValidChoices(c, DisplaySlotCount)
  {
    Shuffle(Range(0, DisplaySlotCount - 1), c)
  }

  /** Draws that let MemorizeRound's do-while end: some storage draw passes against the display draw. */
  predicate MemorizeDrawsOk(d: Draws) {
    ValidChoices(d.display, DisplaySlotCount) && ValidDraws(d.storage) &&
    SomeDrawAccepted(DisplayDraw(d.display), d.storage)
  }

  /** Draws that let TestRound's do-while end against `solution`. */
  predicate TestDrawsOk(solution: seq<int>, storage: seq<seq<int>>) {
    ValidDraws(storage) && SomeDrawAccepted(solution, storage)
  }

  /** What one frame of mouse input tells HandleDragAndDrop: whether the button went down and which
      of objectsToMemorize the raycast hit (its index, or any other value for none), whether the
      button went up, and the distance from the dragged object to each slot. */
  datatype MouseInput = MouseInput(buttonDown: bool, hitObject: int, buttonUp: bool, slotDistances: seq<real>)

  /** The effect of one HandleDragAndDrop frame on (isDragging, draggedObjectIndex, placement):
      a press on object i starts dragging it; a release while dragging resolves the snap and ends
      the drag; otherwise the placement is untouched. */
  ghost predicate FrameHandled(n: int, wasDragging: bool, wasDragged: int, before: seq<int>, input: MouseInput,
                               dragging: bool, dragged: int, after: seq<int>)
    requires 0 <= n <= |before| && |input.slotDistances| == SlotCount
    requires wasDragging ==> 0 <= wasDragged < n
  {
    var pressed := input.buttonDown && 0 <= input.hitObject < n;
    var held := if pressed then input.hitObject else wasDragged;
    if (wasDragging || pressed) && input.buttonUp then
      !dragging && dragged == -1 && after == AfterRelease(before, n, held, input.slotDistances)
    else
      dragging == (wasDragging || pressed) && dragged == held && after == before
  }

  /** A release with no drag in progress changes nothing. */
  lemma ReleaseWithoutPressIsNoOp(n: int, wasDragged: int, before: seq<int>, input: MouseInput,
                                  dragging: bool, dragged: int, after: seq<int>)
    requires 0 <= n <= |before| && |input.slotDistances| == SlotCount
    requires !(input.buttonDown && 0 <= input.hitObject < n)
    requires FrameHandled(n, false, wasDragged, before, input, dragging, dragged, after)
    ensures after == before && !dragging && dragged == wasDragged
  {
  }

  /** MemorizeRound's draws: GenerateRandomIndices(0, 4) for the display placement, then the
      do-while drawing storage placements until AreAllPositionsDifferent accepts one, then the
      copy of the display placement that is kept as the solution. */
  method DrawMemorizeLayout(draws: Draws) returns (display: array<int>, storage: array<int>, solution: array<int>)
    requires MemorizeDrawsOk(draws)
    ensures fresh(display) && fresh(storage) && fresh(solution)
    ensures display != storage && solution != display && solution != storage
    ensures display[..] == DisplayDraw(draws.display) && solution[..] == display[..]
    ensures FillsSlots(display[..], 0, DisplaySlotCount - 1)
    ensures FillsSlots(storage[..], DisplaySlotCount, SlotCount - 1)
    ensures ClassesDiffer(display[..], storage[..])
    ensures storage[..] == FirstAcceptedDraw(display[..], draws.storage)
  {
    display := GenerateRandomIndices(0, 4, draws.display);
    var rejected;
    storage, rejected := DrawUntilAllDifferent(display, draws.storage);
    solution := Clone(display);
    PermutationFillsSlots(display[..], 0, DisplaySlotCount - 1);
    PermutationFillsSlots(storage[..], DisplaySlotCount, SlotCount - 1);
  }

  /** TestRound's do-while: storage placements are drawn until AreAllPositionsDifferent accepts
      one against the solution under test. */
  method DrawTestLayout(solution: array<int>, storage: seq<seq<int>>) returns (placement: array<int>)
    requires solution.Length <= DisplaySlotCount && TestDrawsOk(solution[..], storage)
    ensures fresh(placement)
    ensures FillsSlots(placement[..], DisplaySlotCount, SlotCount - 1)
    ensures ClassesDiffer(solution[..], placement[..])
    ensures placement[..] == FirstAcceptedDraw(solution[..], storage)
  {
    var rejected;
    placement, rejected := DrawUntilAllDifferent(solution, storage);
    PermutationFillsSlots(placement[..], DisplaySlotCount, SlotCount - 1);
  }

  /** `p` has one entry per slot of lo..hi, all distinct and all within lo..hi: the facts about a
      permutation of lo..hi that the game relies on. */
  predicate FillsSlots(p: seq<int>, lo: int, hi: int) {
    |p| == Count(lo, hi) && Distinct(p) && forall i :: 0 <= i < |p| ==> lo <= p[i] <= hi
  }

  lemma PermutationFillsSlots(p: seq<int>, lo: int, hi: int)
    requires IsPermutationOfRange(p, lo, hi)
    ensures FillsSlots(p, lo, hi)
  {
    PermutationOfRangeFacts(p, lo, hi);
    assert forall i :: 0 <= i < |p| ==> p[i] in p;
  }

  /** The converse: filling lo..hi is being a permutation of it (no repeats among as many
      entries as the range has, all in range, leaves no room for another multiset). */
  lemma FilledSlotsArePermutation(p: seq<int>, lo: int, hi: int)
    requires FillsSlots(p, lo, hi)
    ensures IsPermutationOfRange(p, lo, hi)
  {
    var r := Range(lo, hi);
    RangeFacts(lo, hi);
    var mp, mr := multiset(p), multiset(r);
    forall v ensures mp[v] <= mr[v] {
      DistinctMultiplicity(p, v);
      DistinctMultiplicity(r, v);
      if mp[v] > 0 {
        assert v in p;
        var i :| 0 <= i < |p| && p[i] == v;
        assert v in r;
      }
    }
    var rest := mr - mp;
    assert mp + rest == mr;
    assert |mp| == |p| == |r| == |mr|;
    assert |rest| == 0;
    assert rest == multiset{};
  }

  /** Every display draw can start a memorize phase: some storage draw passes the rejection test
      against it, so MemorizeRound's do-while can end whatever GenerateRandomIndices returned. */
  lemma MemorizeCanStart(c: seq<int>)
    requires ValidChoices(c, DisplaySlotCount)
    ensures exists storage :: MemorizeDrawsOk(Draws(c, storage))
  {
    var r := Range(0, DisplaySlotCount - 1);
    RangeFacts(0, DisplaySlotCount - 1);
    ShuffleDownPermutes(r, c, |r| - 1);
    var d := DisplayDraw(c);
    assert IsPermutationOfRange(d, 0, DisplaySlotCount - 1);
    RejectionCanSucceed(d);
    var g :| ValidChoices(g, DisplaySlotCount) && ClassesDiffer(d, StorageDraw(g));
    assert [g][0] == g;
    assert MemorizeDrawsOk(Draws(c, [g]));
  }

  /** Every recorded solution can start a test phase: TestRound's do-while can end against any
      placement that fills the display slots. */
  lemma TestCanStart(solution: seq<int>)
    requires FillsSlots(solution, 0, DisplaySlotCount - 1)
    ensures exists storage :: TestDrawsOk(solution, storage)
  {
    FilledSlotsArePermutation(solution, 0, DisplaySlotCount - 1);
    RejectionCanSucceed(solution);
    var g :| ValidChoices(g, DisplaySlotCount) && ClassesDiffer(solution, StorageDraw(g));
    assert [g][0] == g;
    assert TestDrawsOk(solution, [g]);
  }

  /** A placement filling a range of real slots puts every object on a slot of that range, one per slot. */
  lemma FilledSlotsArePlacement(p: seq<int>, lo: int, hi: int, n: int)
    requires FillsSlots(p, lo, hi) && 0 <= lo && hi < SlotCount && 0 <= n <= |p|
    ensures PlacementOk(p, n)
    ensures forall i :: 0 <= i < n ==> lo <= p[i] <= hi
  {
  }

  /** `(int[])a.Clone()`. */
  method Clone(a: array<int>) returns (b: array<int>)
    ensures fresh(b) && b[..] == a[..]
  {
    b := new int[a.Length];
    forall i | 0 <= i < a.Length {
      b[i] := a[i];
    }
  }

  class GameController {
    /** objectsToMemorize.Length */
    const objectCount: nat
    /** Object -> slot (0-9); null before the first memorize phase. */
    var currentSlotIndices: array?<int>
    /** The storage placement drawn for the next scramble. */
    var initialIndices: array?<int>
    var correctIndicesRound1: array?<int>
    var correctIndicesRound2: array?<int>
    var draggedObjectIndex: int
    var currentRound: int
    var correctCount: int
    var roundScores: array<int>
    var isDragging: bool
    /** resultDlg is active: ShowResult has run and onBtnNextClick (a button on it) can be pressed. */
    var resultShown: bool

    /** The arrays each round relies on exist and have one entry per slot of a half. */
    ghost predicate Allocated()
      reads this
    {
      (currentRound >= 1 ==>
         currentSlotIndices != null && initialIndices != null && correctIndicesRound1 != null &&
         currentSlotIndices.Length == DisplaySlotCount && initialIndices.Length == DisplaySlotCount &&
         correctIndicesRound1.Length == DisplaySlotCount) &&
      (currentRound >= 3 ==> correctIndicesRound2 != null && correctIndicesRound2.Length == DisplaySlotCount) &&
      (currentRound == Ready ==>
         currentSlotIndices == null && initialIndices == null && correctIndicesRound1 == null) &&
      (currentRound < 3 ==> correctIndicesRound2 == null) &&
      roundScores != currentSlotIndices && roundScores != initialIndices &&
      roundScores != correctIndicesRound1 && roundScores != correctIndicesRound2 &&
      (currentSlotIndices != null ==>
         currentSlotIndices != correctIndicesRound1 && currentSlotIndices != correctIndicesRound2)
    }

    /** Solutions are permutations of the display slots once recorded; during a memorize phase the
        placement is the fresh display draw it recorded and initialIndices a storage permutation
        whose classes differ from it object by object. */
    ghost predicate Layouts()
      reads this, currentSlotIndices, initialIndices, correctIndicesRound1, correctIndicesRound2
      requires Allocated()
    {
      (currentRound >= 1 ==> PlacementOk(currentSlotIndices[..], objectCount)) &&
      (currentRound >= 2 ==> FillsSlots(correctIndicesRound1[..], 0, DisplaySlotCount - 1)) &&
      (currentRound >= 4 ==> FillsSlots(correctIndicesRound2[..], 0, DisplaySlotCount - 1)) &&
      (currentRound == 1 || currentRound == 3 ==>
         currentSlotIndices != initialIndices &&
         FillsSlots(currentSlotIndices[..], 0, DisplaySlotCount - 1) &&
         FillsSlots(initialIndices[..], DisplaySlotCount, SlotCount - 1) &&
         ClassesDiffer(currentSlotIndices[..], initialIndices[..])) &&
      (currentRound == 1 ==> correctIndicesRound1[..] == currentSlotIndices[..]) &&
      (currentRound == 3 ==> correctIndicesRound2[..] == currentSlotIndices[..])
    }

    /** Score k has been written: k is a scored round that is over, or the current one after its timer. */
    ghost predicate Recorded(k: int)
      reads this
    {
      DragEnabled(k) && (k < currentRound || (k == currentRound && resultShown))
    }

    /** Every score lies in [0, objectCount], and a score not yet recorded is still 0. */
    ghost predicate ScoreBoard()
      reads this, roundScores
    {
      roundScores.Length == ScoreEntries &&
      (forall k :: 0 <= k < ScoreEntries ==> 0 <= roundScores[k] <= objectCount) &&
      (forall k :: 0 <= k < ScoreEntries && !Recorded(k) ==> roundScores[k] == 0)
    }

    ghost predicate Valid()
      reads this, currentSlotIndices, initialIndices, correctIndicesRound1, correctIndicesRound2, roundScores
    {
      objectCount <= DisplaySlotCount &&
      Ready <= currentRound <= Over &&
      Allocated() && Layouts() && ScoreBoard() &&
      (resultShown ==> DragEnabled(currentRound)) &&
      (isDragging ==> currentRound >= 1 && 0 <= draggedObjectIndex < objectCount) &&
      (!isDragging ==> draggedObjectIndex == -1)
    }

    /** The solution the current round is scored against. */
    function CorrectIndices(): array?<int>
      reads this
    {
      if SolutionRound(currentRound) == 1 then correctIndicesRound1 else correctIndicesRound2
    }

    constructor (objectCount: nat)
      requires objectCount <= DisplaySlotCount
      ensures Valid() && fresh(roundScores)
      ensures this.objectCount == objectCount && currentRound == Ready
      ensures currentSlotIndices == null && initialIndices == null
      ensures correctIndicesRound1 == null && correctIndicesRound2 == null
      ensures !isDragging && draggedObjectIndex == -1 && !resultShown && correctCount == 0
      ensures roundScores[..] == seq(ScoreEntries, _ => 0)
    {
      this.objectCount := objectCount;
      currentSlotIndices := null;
      initialIndices := null;
      correctIndicesRound1 := null;
      correctIndicesRound2 := null;
      draggedObjectIndex := -1;
      currentRound := Ready;
      correctCount := 0;
      roundScores := new int[ScoreEntries](_ => 0);
      isDragging := false;
      resultShown := false;
    }

    /** onBtnStartClick (from 0) and onBtnNextClick (from 2): currentRound goes up by one and
        MemorizeRound runs up to its first wait. The display placement, the storage placement and
        the copy of the display placement recorded as the solution of round 1 (currentRound 1) or
        round 2 (currentRound 3) all come from DrawMemorizeLayout. */
    method EnterMemorize(draws: Draws)
      requires Valid() && (currentRound == Ready || currentRound == 2)
      requires MemorizeDrawsOk(draws)
      modifies this
      ensures Valid() && !resultShown
      ensures currentRound == old(currentRound) + 1
      ensures roundScores == old(roundScores)
      ensures isDragging == old(isDragging) && draggedObjectIndex == old(draggedObjectIndex)
      ensures fresh(currentSlotIndices) && currentSlotIndices[..] == DisplayDraw(draws.display)
      ensures correctCount == old(correctCount)
      ensures fresh(initialIndices) && ClassesDiffer(currentSlotIndices[..], initialIndices[..])
      ensures initialIndices[..] == FirstAcceptedDraw(currentSlotIndices[..], draws.storage)
      ensures currentRound == 1 ==> fresh(correctIndicesRound1) && correctIndicesRound1[..] == currentSlotIndices[..]
      ensures currentRound == 3 ==>
                fresh(correctIndicesRound2) && correctIndicesRound2[..] == currentSlotIndices[..] &&
                correctIndicesRound1 == old(correctIndicesRound1)
    {
      resultShown := false;
      currentRound := currentRound + 1;
      var display, storage, solution := DrawMemorizeLayout(draws);
      currentSlotIndices := display;
      initialIndices := storage;
      if currentRound == 1 {
        correctIndicesRound1 := solution;
      } else {
        correctIndicesRound2 := solution;
      }
      FilledSlotsArePlacement(display[..], 0, DisplaySlotCount - 1, objectCount);
    }

    /** onBtnStartClick: currentRound becomes 1 and MemorizeRound starts. */
    method OnBtnStartClick(draws: Draws)
      requires Valid() && currentRound == Ready
      requires MemorizeDrawsOk(draws)
      modifies this
      ensures Valid() && currentRound == 1
      ensures fresh(currentSlotIndices) && currentSlotIndices[..] == DisplayDraw(draws.display)
      ensures fresh(correctIndicesRound1) && correctIndicesRound1[..] == currentSlotIndices[..]
      ensures fresh(initialIndices) && ClassesDiffer(currentSlotIndices[..], initialIndices[..])
      ensures initialIndices[..] == FirstAcceptedDraw(currentSlotIndices[..], draws.storage)
      ensures roundScores == old(roundScores) && !resultShown
      ensures !isDragging && draggedObjectIndex == -1
      ensures correctCount == old(correctCount)
    {
      EnterMemorize(draws);
    }

    /** The rest of MemorizeRound once the memorize timer has run out: the objects move to the
        storage placement (a copy of initialIndices), and after the overlay wait currentRound goes
        up by one, from memorize to play. */
    method MemorizeTimeUp()
      requires Valid() && (currentRound == 1 || currentRound == 3)
      modifies this
      ensures Valid()
      ensures currentRound == old(currentRound) + 1
      ensures fresh(currentSlotIndices) && currentSlotIndices[..] == old(initialIndices[..])
      ensures Score(currentSlotIndices[..], CorrectIndices()[..], objectCount) == 0
      ensures initialIndices == old(initialIndices) && roundScores == old(roundScores)
      ensures correctIndicesRound1 == old(correctIndicesRound1) && correctIndicesRound2 == old(correctIndicesRound2)
      ensures draggedObjectIndex == old(draggedObjectIndex) && isDragging == old(isDragging)
      ensures resultShown == old(resultShown) && correctCount == old(correctCount)
    {
      currentSlotIndices := Clone(initialIndices);
      FilledSlotsArePlacement(currentSlotIndices[..], DisplaySlotCount, SlotCount - 1, objectCount);
      currentRound := currentRound + 1;
      StorageScoresZero(currentSlotIndices[..], CorrectIndices()[..], objectCount);
    }

    /** CalculateCorrectPositions: the number of objects on a display slot equal to their slot in
        the solution the current round is scored against. */
    method CalculateCorrectPositions() returns (count: int)
      requires Valid() && currentRound >= 2
      ensures count == Score(currentSlotIndices[..], CorrectIndices()[..], objectCount)
      ensures 0 <= count <= objectCount
    {
      count := 0;
      var correctIndices :=
        if currentRound < 5 then
          (if currentRound == 2 then correctIndicesRound1 else correctIndicesRound2)
        else
          (if currentRound == 5 then correctIndicesRound1 else correctIndicesRound2);
      for i := 0 to objectCount
        invariant count == Score(currentSlotIndices[..], correctIndices[..], i)
      {
        if currentSlotIndices[i] < 5 && currentSlotIndices[i] == correctIndices[i] {
          count := count + 1;
        }
      }
    }

    /** The end of GameRound and of TestRound once the play timer has run out: score the placement,
        write roundScores[currentRound] and show the result dialog. */
    method RoundTimeUp()
      requires Valid() && DragEnabled(currentRound) && !resultShown
      modifies this, roundScores
      ensures Valid() && resultShown
      ensures correctCount == Score(currentSlotIndices[..], CorrectIndices()[..], objectCount)
      ensures roundScores == old(roundScores) && old(roundScores[currentRound]) == 0
      ensures roundScores[..] == old(roundScores[..])[currentRound := correctCount]
      ensures currentRound == old(currentRound) && currentSlotIndices == old(currentSlotIndices)
      ensures initialIndices == old(initialIndices)
      ensures correctIndicesRound1 == old(correctIndicesRound1) && correctIndicesRound2 == old(correctIndicesRound2)
      ensures draggedObjectIndex == old(draggedObjectIndex) && isDragging == old(isDragging)
    {
      correctCount := CalculateCorrectPositions();
      roundScores[currentRound] := correctCount;
      resultShown := true;
    }

    /** onBtnNextClick from 4 or 5: currentRound goes up by one and TestRound runs up to its first
        wait: draw storage placements until one differs in class, object by object, from the
        solution under test, and place the objects there. The placement becomes the very array
        initialIndices (no copy). */
    method EnterTest(storage: seq<seq<int>>)
      requires Valid() && (currentRound == 4 || currentRound == 5)
      requires currentRound == 4 ==> TestDrawsOk(correctIndicesRound1[..], storage)
      requires currentRound == 5 ==> TestDrawsOk(correctIndicesRound2[..], storage)
      modifies this
      ensures Valid() && !resultShown
      ensures currentRound == old(currentRound) + 1
      ensures roundScores == old(roundScores)
      ensures isDragging == old(isDragging) && draggedObjectIndex == old(draggedObjectIndex)
      ensures correctIndicesRound1 == old(correctIndicesRound1) && correctIndicesRound2 == old(correctIndicesRound2)
      ensures fresh(initialIndices) && currentSlotIndices == initialIndices
      ensures FillsSlots(currentSlotIndices[..], DisplaySlotCount, SlotCount - 1)
      ensures correctCount == old(correctCount)
      ensures ClassesDiffer(CorrectIndices()[..], currentSlotIndices[..])
      ensures currentSlotIndices[..] == FirstAcceptedDraw(CorrectIndices()[..], storage)
    {
      resultShown := false;
      currentRound := currentRound + 1;
      if currentRound == 5 {
        initialIndices := DrawTestLayout(correctIndicesRound1, storage);
      } else {
        initialIndices := DrawTestLayout(correctIndicesRound2, storage);
      }
      currentSlotIndices := initialIndices;
      FilledSlotsArePlacement(currentSlotIndices[..], DisplaySlotCount, SlotCount - 1, objectCount);
    }

    /** onBtnNextClick: 2 -> 3 starts the second memorize phase, 4 -> 5 and 5 -> 6 start a test
        phase, and from any other round the scores are saved and the game is over (7).
        `savedScores` is what SaveScoresToFile writes: roundScores[2], [4], [5] and [6], in that order. */
    method OnBtnNextClick(draws: Draws) returns (savedScores: seq<int>)
      requires Valid() && resultShown
      requires currentRound == 2 ==> MemorizeDrawsOk(draws)
      requires currentRound == 4 ==> TestDrawsOk(correctIndicesRound1[..], draws.storage)
      requires currentRound == 5 ==> TestDrawsOk(correctIndicesRound2[..], draws.storage)
      modifies this
      ensures Valid() && !resultShown
      ensures currentRound == NextRound(old(currentRound))
      ensures roundScores == old(roundScores) && roundScores[..] == old(roundScores[..])
      ensures isDragging == old(isDragging) && draggedObjectIndex == old(draggedObjectIndex)
      ensures correctCount == old(correctCount)
      ensures correctIndicesRound1 == old(correctIndicesRound1)
      ensures old(currentRound) != 2 ==> correctIndicesRound2 == old(correctIndicesRound2)
      ensures currentRound == 3 ==>
                fresh(currentSlotIndices) && currentSlotIndices[..] == DisplayDraw(draws.display) &&
                fresh(correctIndicesRound2) && correctIndicesRound2[..] == currentSlotIndices[..] &&
                ClassesDiffer(currentSlotIndices[..], initialIndices[..]) &&
                initialIndices[..] == FirstAcceptedDraw(currentSlotIndices[..], draws.storage)
      ensures currentRound == 5 || currentRound == 6 ==>
                fresh(initialIndices) && currentSlotIndices == initialIndices &&
                FillsSlots(currentSlotIndices[..], DisplaySlotCount, SlotCount - 1) &&
                ClassesDiffer(CorrectIndices()[..], currentSlotIndices[..]) &&
                currentSlotIndices[..] == FirstAcceptedDraw(CorrectIndices()[..], draws.storage)
      ensures currentRound == Over ==>
                savedScores == [roundScores[2], roundScores[4], roundScores[5], roundScores[6]] &&
                currentSlotIndices == old(currentSlotIndices) && initialIndices == old(initialIndices)
      ensures currentRound != Over ==> savedScores == []
    {
      savedScores := [];
      if currentRound == 2 {
        EnterMemorize(draws);
      } else if currentRound == 4 || currentRound == 5 {
        EnterTest(draws.storage);
      } else {
        resultShown := false;
        savedScores := [roundScores[2], roundScores[4], roundScores[5], roundScores[6]];
        currentRound := Over;
      }
    }

    /** The release branch of HandleDragAndDrop: snap the dragged object to the nearest free slot
        when it is within 0.3f, otherwise leave it where its placement says; then end the drag. */
    method ReleaseDrag(distances: seq<real>)
      requires Valid() && isDragging && DragEnabled(currentRound) && |distances| == SlotCount
      modifies this, currentSlotIndices
      ensures currentSlotIndices == old(currentSlotIndices)
      ensures currentRound == old(currentRound) && resultShown == old(resultShown) && correctCount == old(correctCount)
      ensures initialIndices == old(initialIndices) && roundScores == old(roundScores)
      ensures correctIndicesRound1 == old(correctIndicesRound1) && correctIndicesRound2 == old(correctIndicesRound2)
      ensures Valid()
      ensures !isDragging && draggedObjectIndex == -1
      ensures currentSlotIndices[..] == AfterRelease(old(currentSlotIndices[..]), objectCount, old(draggedObjectIndex), distances)
    {
      ghost var before := currentSlotIndices[..];
      var nearestSlotIndex, minDistance := FindNearestFreeSlot(currentSlotIndices, objectCount, draggedObjectIndex, distances);
      ScanDecidesRelease(before, objectCount, draggedObjectIndex, distances, nearestSlotIndex, minDistance);
      ReleaseKeepsPlacement(before, objectCount, draggedObjectIndex, distances);
      if nearestSlotIndex != -1 && minDistance <= SnapDistance {
        currentSlotIndices[draggedObjectIndex] := nearestSlotIndex;
      }
      isDragging := false;
      draggedObjectIndex := -1;
    }

    /** HandleDragAndDrop: a press on one of the objects starts dragging it; while the button is
        held only the object's rendered position moves; a release while dragging resolves the snap. */
    method HandleDragAndDrop(input: MouseInput)
      requires Valid() && DragEnabled(currentRound) && |input.slotDistances| == SlotCount
      modifies this, currentSlotIndices
      ensures currentSlotIndices == old(currentSlotIndices)
      ensures currentRound == old(currentRound) && resultShown == old(resultShown) && correctCount == old(correctCount)
      ensures initialIndices == old(initialIndices) && roundScores == old(roundScores)
      ensures correctIndicesRound1 == old(correctIndicesRound1) && correctIndicesRound2 == old(correctIndicesRound2)
      ensures Valid()
      ensures FrameHandled(objectCount, old(isDragging), old(draggedObjectIndex), old(currentSlotIndices[..]), input,
                           isDragging, draggedObjectIndex, currentSlotIndices[..])
    {
      if input.buttonDown && 0 <= input.hitObject < objectCount {
        isDragging := true;
        draggedObjectIndex := input.hitObject;
      }
      if isDragging && input.buttonUp {
        ReleaseDrag(input.slotDistances);
      }
    }

    /** Update: drags are handled in rounds 2, 4, 5 and 6 only. */
    method Update(input: MouseInput)
      requires Valid() && |input.slotDistances| == SlotCount
      modifies this, currentSlotIndices
      ensures currentSlotIndices == old(currentSlotIndices)
      ensures currentRound == old(currentRound) && resultShown == old(resultShown) && correctCount == old(correctCount)
      ensures initialIndices == old(initialIndices) && roundScores == old(roundScores)
      ensures correctIndicesRound1 == old(correctIndicesRound1) && correctIndicesRound2 == old(correctIndicesRound2)
      ensures Valid()
      ensures DragEnabled(currentRound) ==>
                FrameHandled(objectCount, old(isDragging), old(draggedObjectIndex), old(currentSlotIndices[..]), input,
                             isDragging, draggedObjectIndex, currentSlotIndices[..])
      ensures !DragEnabled(currentRound) ==>
                isDragging == old(isDragging) && draggedObjectIndex == old(draggedObjectIndex) &&
                (currentSlotIndices != null ==> currentSlotIndices[..] == old(currentSlotIndices[..]))
    {
      if currentRound == 2 || currentRound == 4 || currentRound == 5 || currentRound == 6 {
        HandleDragAndDrop(input);
      }
    }
  }
}
