/** The ten slots of the table and placements of objects onto them. */
module Slots {

  /** Number of slots (slotPositions has ten entries). */
  const SlotCount: int := 10

  /** Slots 0-4 are on the table top (display half), slots 5-9 below it (storage half). */
  const DisplaySlotCount: int := 5

  predicate IsDisplaySlot(slot: int) {
    0 <= slot < DisplaySlotCount
  }

  predicate IsStorageSlot(slot: int) {
    DisplaySlotCount <= slot < SlotCount
  }

  /** `slot % 5` as C# computes it: the remainder truncates toward zero, so it takes the sign of `slot`.
      Slots 0 and 5, 1 and 6, ... share a class: the same conceptual position on either half. */
  function SlotClass(slot: int): (c: int)
    ensures -DisplaySlotCount < c < DisplaySlotCount
    ensures slot >= 0 ==> c >= 0
    ensures slot <= 0 ==> c <= 0
    ensures IsDisplaySlot(slot) ==> c == slot
    ensures IsStorageSlot(slot) ==> c == slot - DisplaySlotCount
  {
    if slot >= 0 then slot % 5 else -((-slot) % 5)
  }

  /** No two of the first `n` objects share a slot. */
  predicate Injective(p: seq<int>, n: int)
    requires 0 <= n <= |p|
  {
    forall i, j :: 0 <= i < n && 0 <= j < n && i != j ==> p[i] != p[j]
  }

  /** The first `n` objects of placement `p` (object -> slot) sit on real slots, one per slot. */
  predicate PlacementOk(p: seq<int>, n: int) {
    0 <= n <= |p| &&
    (forall i :: 0 <= i < n ==> 0 <= p[i] < SlotCount) &&
    Injective(p, n)
  }
}
