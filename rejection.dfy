/** The rejection test of a scrambled placement against a reference placement, and the
    do-while loops that redraw the storage placement until the test passes. */
module Rejection {
  import opened Slots
  import opened FisherYates

  /** For every object of `a`, its slot class differs from that of its slot in `b`. */
  predicate ClassesDiffer(a: seq<int>, b: seq<int>) {
    |a| <= |b| && forall i :: 0 <= i < |a| ==> SlotClass(a[i]) != SlotClass(b[i])
  }

  /** AreAllPositionsDifferent(arr1, arr2): compares the slot classes `% 5` object by object and
      answers false at the first object whose two slots share a class. */
  method AreAllPositionsDifferent(arr1: array<int>, arr2: array<int>) returns (different: bool)
    requires arr1.Length <= arr2.Length
    ensures different <==> ClassesDiffer(arr1[..], arr2[..])
  {
    for i := 0 to arr1.Length
      invariant forall k :: 0 <= k < i ==> SlotClass(arr1[k]) != SlotClass(arr2[k])
    {
      var pos1 := SlotClass(arr1[i]);
      var pos2 := SlotClass(arr2[i]);
      if pos1 == pos2 {
        return false;
      }
    }
    return true;
  }

  /** The storage placement that the draws `c` give. */
  function StorageDraw(c: seq<int>): seq<int>
    requires ValidChoices(c, DisplaySlotCount)
  {
    Shuffle(Range(DisplaySlotCount, SlotCount - 1), c)
  }

  /** Every draw is a valid set of shuffle choices for five elements. */
  predicate ValidDraws(draws: seq<seq<int>>) {
    forall k :: 0 <= k < |draws| ==> ValidChoices(draws[k], DisplaySlotCount)
  }

  /** Some of the draws passes the rejection test against `reference`. */
  predicate SomeDrawAccepted(reference: seq<int>, draws: seq<seq<int>>)
    requires ValidDraws(draws)
  {
    exists k :: 0 <= k < |draws| && ClassesDiffer(reference, StorageDraw(draws[k]))
  }

  /** If some draw is accepted but the first is not, some later draw is accepted. */
  lemma AcceptedInTail(reference: seq<int>, draws: seq<seq<int>>)
    requires ValidDraws(draws) && SomeDrawAccepted(reference, draws)
    requires !ClassesDiffer(reference, StorageDraw(draws[0]))
    ensures ValidDraws(draws[1..]) && SomeDrawAccepted(reference, draws[1..])
  {
    var k :| 0 <= k < |draws| && ClassesDiffer(reference, StorageDraw(draws[k]));
    assert draws[1..][k - 1] == draws[k];
  }

  /** The storage placement the do-while ends with: the first of the draws that passes the
      rejection test against `reference`. */
  function FirstAcceptedDraw(reference: seq<int>, draws: seq<seq<int>>): (p: seq<int>)
    requires ValidDraws(draws) && SomeDrawAccepted(reference, draws)
    ensures ClassesDiffer(reference, p)
    decreases |draws|
  {
    if ClassesDiffer(reference, StorageDraw(draws[0])) then StorageDraw(draws[0])
    else
      AcceptedInTail(reference, draws);
      FirstAcceptedDraw(reference, draws[1..])
  }

  /** When draw k is accepted and every draw before it is rejected, draw k is the one
      FirstAcceptedDraw picks. */
  lemma {:induction false} FirstAcceptedDrawAt(reference: seq<int>, draws: seq<seq<int>>, k: int)
    requires ValidDraws(draws) && 0 <= k < |draws|
    requires ClassesDiffer(reference, StorageDraw(draws[k]))
    requires forall j :: 0 <= j < k ==> !ClassesDiffer(reference, StorageDraw(draws[j]))
    ensures SomeDrawAccepted(reference, draws)
    ensures FirstAcceptedDraw(reference, draws) == StorageDraw(draws[k])
    decreases k
  {
    if k > 0 {
      assert !ClassesDiffer(reference, StorageDraw(draws[0]));
      var tail := draws[1..];
      assert tail[k - 1] == draws[k];
      forall j | 0 <= j < k - 1
        ensures !ClassesDiffer(reference, StorageDraw(tail[j]))
      {
        assert tail[j] == draws[j + 1];
      }
      FirstAcceptedDrawAt(reference, tail, k - 1);
    }
  }

  /** One pass of the do-while body and condition: `indices = GenerateRandomIndices(5, 9)`, then
      `AreAllPositionsDifferent(reference, indices)`. */
  method DrawOnce(reference: array<int>, c: seq<int>) returns (indices: array<int>, different: bool)
    requires reference.Length <= DisplaySlotCount
    requires ValidChoices(c, DisplaySlotCount)
    ensures fresh(indices)
    ensures indices[..] == StorageDraw(c)
    ensures IsPermutationOfRange(indices[..], DisplaySlotCount, SlotCount - 1)
    ensures different <==> ClassesDiffer(reference[..], indices[..])
  {
    indices := GenerateRandomIndices(5, 9, c);
    different := AreAllPositionsDifferent(reference, indices);
  }

  /** The do-while of MemorizeRound and TestRound: draw GenerateRandomIndices(5, 9) until
      AreAllPositionsDifferent(reference, it) holds. `draws` are the successive draws; the loop's
      run ends at the first accepted one, whose index is `rejected` (the number of draws thrown away). */
  method DrawUntilAllDifferent(reference: array<int>, draws: seq<seq<int>>) returns (indices: array<int>, rejected: nat)
    requires reference.Length <= DisplaySlotCount
    requires ValidDraws(draws) && SomeDrawAccepted(reference[..], draws)
    ensures fresh(indices)
    ensures rejected < |draws| && indices[..] == StorageDraw(draws[rejected])
    ensures ClassesDiffer(reference[..], indices[..])
    ensures forall k :: 0 <= k < rejected ==> !ClassesDiffer(reference[..], StorageDraw(draws[k]))
    ensures IsPermutationOfRange(indices[..], DisplaySlotCount, SlotCount - 1)
    ensures indices[..] == FirstAcceptedDraw(reference[..], draws)
  {
    ghost var ref := reference[..];
    ghost var accepted :| 0 <= accepted < |draws| && ClassesDiffer(ref, StorageDraw(draws[accepted]));
    rejected := 0;
    var different;
    indices, different := DrawOnce(reference, draws[rejected]);
    while !different
      invariant rejected <= accepted && reference[..] == ref
      invariant fresh(indices) && indices[..] == StorageDraw(draws[rejected])
      invariant IsPermutationOfRange(indices[..], DisplaySlotCount, SlotCount - 1)
      invariant different <==> ClassesDiffer(ref, indices[..])
      invariant forall k :: 0 <= k < rejected ==> !ClassesDiffer(ref, StorageDraw(draws[k]))
      decreases accepted - rejected
    {
      assert rejected != accepted;
      rejected := rejected + 1;
      indices, different := DrawOnce(reference, draws[rejected]);
    }
    FirstAcceptedDrawAt(ref, draws, rejected);
  }

  /** The class of display slot x's right-hand neighbour (cyclically), taken on the storage half. */
  function NeighbourStorageSlot(x: int): int {
    DisplaySlotCount + (x + 1) % DisplaySlotCount
  }

  /** Moving every object of a display permutation to the storage slot of its right-hand
      neighbour's class gives a permutation of the storage slots 5..9. */
  lemma NeighbourPlacementPermutes(reference: seq<int>)
    requires IsPermutationOfRange(reference, 0, DisplaySlotCount - 1)
    ensures IsPermutationOfRange(Map(NeighbourStorageSlot, reference), DisplaySlotCount, SlotCount - 1)
  {
    var display := Range(0, DisplaySlotCount - 1);
    ShuffleIsOnto(display, reference);
    var c0 :| ValidChoices(c0, |display|) && Shuffle(display, c0) == reference;
    ShuffleDownMap(NeighbourStorageSlot, display, c0, |display| - 1);
    ShiftedDisplayPermutes();
    ShuffleDownPermutes(Map(NeighbourStorageSlot, display), c0, |display| - 1);
  }

  lemma ShiftedDisplayPermutes()
    ensures IsPermutationOfRange(Map(NeighbourStorageSlot, Range(0, DisplaySlotCount - 1)), DisplaySlotCount, SlotCount - 1)
  {
    ShiftedDisplay();
    StorageRange();
    var inner := [6, 7, 8, 9];
    assert [6, 7, 8, 9, 5] == inner + [5] && [5, 6, 7, 8, 9] == [5] + inner;
    assert multiset(inner + [5]) == multiset(inner) + multiset([5]) == multiset([5] + inner);
  }

  lemma ShiftedDisplay()
    ensures Map(NeighbourStorageSlot, Range(0, DisplaySlotCount - 1)) == [6, 7, 8, 9, 5]
  {
    var display := Range(0, DisplaySlotCount - 1);
    var shifted := Map(NeighbourStorageSlot, display);
    assert display == [0, 1, 2, 3, 4];
    forall k | 0 <= k < 5
      ensures shifted[k] == [6, 7, 8, 9, 5][k]
    {
      assert shifted[k] == NeighbourStorageSlot(display[k]);
    }
  }

  lemma StorageRange()
    ensures Range(DisplaySlotCount, SlotCount - 1) == [5, 6, 7, 8, 9]
  {
  }

  /** The rejection test can always be passed: for every reference that is a permutation of the
      display slots 0..4 (every solution the game records), some valid draws give a storage
      placement whose classes differ from it object by object. */
  lemma RejectionCanSucceed(reference: seq<int>)
    requires IsPermutationOfRange(reference, 0, DisplaySlotCount - 1)
    ensures exists c :: ValidChoices(c, DisplaySlotCount) && ClassesDiffer(reference, StorageDraw(c))
  {
    PermutationOfRangeFacts(reference, 0, DisplaySlotCount - 1);
    var target := Map(NeighbourStorageSlot, reference);
    NeighbourPlacementPermutes(reference);
    ShuffleIsOnto(Range(DisplaySlotCount, SlotCount - 1), target);
    var c :| ValidChoices(c, DisplaySlotCount) && StorageDraw(c) == target;
    forall i | 0 <= i < |reference|
      ensures SlotClass(reference[i]) != SlotClass(target[i])
    {
      assert reference[i] in reference;
      NeighbourClassDiffers(reference[i]);
    }
  }

  /** With solution [2, 0, 4, 1, 3], the storage draw [7, 5, 9, 6, 8] repeats every class and is
      rejected, while [5, 9, 6, 8, 7] (classes [0, 4, 1, 3, 2]) is accepted. */
  lemma ScrambleExampleDraws()
    ensures !ClassesDiffer([2, 0, 4, 1, 3], [7, 5, 9, 6, 8])
    ensures ClassesDiffer([2, 0, 4, 1, 3], [5, 9, 6, 8, 7])
  {
    assert SlotClass([7, 5, 9, 6, 8][0]) == SlotClass([2, 0, 4, 1, 3][0]);
    var solution, accepted := [2, 0, 4, 1, 3], [5, 9, 6, 8, 7];
    forall i | 0 <= i < 5
      ensures SlotClass(solution[i]) != SlotClass(accepted[i])
    {
      assert IsDisplaySlot(solution[i]) && IsStorageSlot(accepted[i]);
    }
  }

  /** A display slot and the storage slot of its neighbour's class are in different classes. */
  lemma NeighbourClassDiffers(x: int)
    requires IsDisplaySlot(x)
    ensures IsStorageSlot(NeighbourStorageSlot(x))
    ensures SlotClass(x) != SlotClass(NeighbourStorageSlot(x))
  {
  }
}
