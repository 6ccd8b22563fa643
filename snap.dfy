/** The release branch of HandleDragAndDrop: find the nearest slot no other object occupies and
    move the dragged object there when it lies within the snap distance. The distance from the
    dragged object to each slot is an input (one value per slot). */
module Snap {
  import opened Slots

  /** float.MaxValue, the initial minDistance (exact value of the largest float32). */
  const FloatMax: real := 340282346638528859811704183484516925440.0

  /** 0.3f, the snap threshold (exact value of the float32 nearest to 0.3). */
  const SnapDistance: real := 0.300000011920928955078125

  /** No object among the first n other than `dragged` occupies `slot`. */
  predicate SlotFree(placement: seq<int>, n: int, dragged: int, slot: int)
    requires 0 <= n <= |placement|
  {
    forall j :: 0 <= j < n && j != dragged ==> placement[j] != slot
  }

  /** `slot` is the slot the scan picks: a free slot closer than float.MaxValue, no farther than any
      free slot, and strictly closer than every free slot with a lower index (the comparison is `<`). */
  ghost predicate IsNearestFree(placement: seq<int>, n: int, dragged: int, distances: seq<real>, slot: int)
    requires 0 <= n <= |placement| && |distances| == SlotCount
  {
    0 <= slot < SlotCount &&
    SlotFree(placement, n, dragged, slot) &&
    distances[slot] < FloatMax &&
    (forall t :: 0 <= t < SlotCount && SlotFree(placement, n, dragged, t) ==> distances[slot] <= distances[t]) &&
    (forall t :: 0 <= t < slot && SlotFree(placement, n, dragged, t) ==> distances[slot] < distances[t])
  }

  /** The release commits to `slot`: it is the nearest free slot and within the snap distance. */
  ghost predicate IsSnapSlot(placement: seq<int>, n: int, dragged: int, distances: seq<real>, slot: int)
    requires 0 <= n <= |placement| && |distances| == SlotCount
  {
    IsNearestFree(placement, n, dragged, distances, slot) && distances[slot] <= SnapDistance
  }

  /** There is at most one nearest free slot: ties go to the lowest index. */
  lemma NearestFreeUnique(placement: seq<int>, n: int, dragged: int, distances: seq<real>, s1: int, s2: int)
    requires 0 <= n <= |placement| && |distances| == SlotCount
    requires IsNearestFree(placement, n, dragged, distances, s1)
    requires IsNearestFree(placement, n, dragged, distances, s2)
    ensures s1 == s2
  {
  }

  /** The placement after a release of object `dragged`: moved to the snap slot if there is one,
      unchanged otherwise. */
  ghost function AfterRelease(placement: seq<int>, n: int, dragged: int, distances: seq<real>): (r: seq<int>)
    requires 0 <= n <= |placement| && 0 <= dragged < |placement| && |distances| == SlotCount
    ensures |r| == |placement|
    ensures forall j :: 0 <= j < |placement| && j != dragged ==> r[j] == placement[j]
    ensures r[dragged] == placement[dragged] || (0 <= r[dragged] < SlotCount && SlotFree(placement, n, dragged, r[dragged]))
    ensures r[dragged] != placement[dragged] ==> distances[r[dragged]] <= SnapDistance
  {
    if exists s :: IsSnapSlot(placement, n, dragged, distances, s) then
      var s :| IsSnapSlot(placement, n, dragged, distances, s);
      placement[dragged := s]
    else
      placement
  }

  /** A release keeps the first n objects on distinct real slots. */
  lemma ReleaseKeepsPlacement(placement: seq<int>, n: int, dragged: int, distances: seq<real>)
    requires PlacementOk(placement, n) && 0 <= dragged < n && |distances| == SlotCount
    ensures PlacementOk(AfterRelease(placement, n, dragged, distances), n)
  {
    var r := AfterRelease(placement, n, dragged, distances);
    forall i, j | 0 <= i < n && 0 <= j < n && i != j
      ensures r[i] != r[j]
    {
      if i != dragged && j != dragged {
        assert r[i] == placement[i] && r[j] == placement[j];
      }
    }
  }

  /** With no free slot within the snap distance, a release leaves the placement as it was. */
  lemma ReleaseWithoutNearbySlotReverts(placement: seq<int>, n: int, dragged: int, distances: seq<real>)
    requires 0 <= n <= |placement| && 0 <= dragged < |placement| && |distances| == SlotCount
    requires forall s :: 0 <= s < SlotCount && SlotFree(placement, n, dragged, s) ==> distances[s] > SnapDistance
    ensures AfterRelease(placement, n, dragged, distances) == placement
  {
  }

  /** The outcome of the scan decides the release: the object moves to the slot found exactly
      when one was found and its distance is within the snap distance. */
  lemma ScanDecidesRelease(placement: seq<int>, n: int, dragged: int, distances: seq<real>, nearest: int, minDistance: real)
    requires 0 <= n <= |placement| && 0 <= dragged < |placement| && |distances| == SlotCount
    requires nearest == -1 <==>
               forall t :: 0 <= t < SlotCount && SlotFree(placement, n, dragged, t) ==> distances[t] >= FloatMax
    requires nearest != -1 ==>
               IsNearestFree(placement, n, dragged, distances, nearest) && minDistance == distances[nearest]
    ensures AfterRelease(placement, n, dragged, distances) ==
            if nearest != -1 && minDistance <= SnapDistance then placement[dragged := nearest] else placement
  {
    if nearest != -1 && minDistance <= SnapDistance {
      assert IsSnapSlot(placement, n, dragged, distances, nearest);
      forall s | IsSnapSlot(placement, n, dragged, distances, s)
        ensures s == nearest
      {
        NearestFreeUnique(placement, n, dragged, distances, s, nearest);
      }
    } else {
      forall s ensures !IsSnapSlot(placement, n, dragged, distances, s) {
        if nearest != -1 && IsSnapSlot(placement, n, dragged, distances, s) {
          NearestFreeUnique(placement, n, dragged, distances, s, nearest);
        }
      }
    }
  }

  /** The nested loops of the release branch: for each slot i, check that no object j other than
      the dragged one sits there; among the free slots keep the first one with the smallest
      distance below float.MaxValue. nearestSlotIndex stays -1 when there is none. */
  method FindNearestFreeSlot(currentSlotIndices: array<int>, objectCount: int, draggedObjectIndex: int, distances: seq<real>)
    returns (nearestSlotIndex: int, minDistance: real)
    requires 0 <= objectCount <= currentSlotIndices.Length && |distances| == SlotCount
    ensures nearestSlotIndex == -1 <==>
              forall t :: 0 <= t < SlotCount && SlotFree(currentSlotIndices[..], objectCount, draggedObjectIndex, t) ==> distances[t] >= FloatMax
    ensures nearestSlotIndex == -1 ==> minDistance == FloatMax
    ensures nearestSlotIndex != -1 ==>
              IsNearestFree(currentSlotIndices[..], objectCount, draggedObjectIndex, distances, nearestSlotIndex) &&
              minDistance == distances[nearestSlotIndex]
  {
    ghost var p := currentSlotIndices[..];
    nearestSlotIndex := -1;
    minDistance := FloatMax;
    for i := 0 to SlotCount
      invariant nearestSlotIndex == -1 ==> minDistance == FloatMax
      invariant nearestSlotIndex == -1 <==>
                  forall t :: 0 <= t < i && SlotFree(p, objectCount, draggedObjectIndex, t) ==> distances[t] >= FloatMax
      invariant nearestSlotIndex != -1 ==>
                  0 <= nearestSlotIndex < i && SlotFree(p, objectCount, draggedObjectIndex, nearestSlotIndex) &&
                  minDistance == distances[nearestSlotIndex] < FloatMax
      invariant forall t :: 0 <= t < i && SlotFree(p, objectCount, draggedObjectIndex, t) ==> minDistance <= distances[t]
      invariant forall t :: 0 <= t < nearestSlotIndex && SlotFree(p, objectCount, draggedObjectIndex, t) ==> minDistance < distances[t]
    {
      var slotOccupied := false;
      for j := 0 to objectCount
        invariant !slotOccupied
        invariant forall k :: 0 <= k < j && k != draggedObjectIndex ==> p[k] != i
      {
        if j != draggedObjectIndex && currentSlotIndices[j] == i {
          slotOccupied := true;
          break;
        }
      }
      assert slotOccupied <==> !SlotFree(p, objectCount, draggedObjectIndex, i);

      if !slotOccupied {
        var distance := distances[i];
        if distance < minDistance {
          minDistance := distance;
          nearestSlotIndex := i;
        }
      }
    }
  }
}
