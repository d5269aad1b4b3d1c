/** Where a spawner puts a letter tile. */
module Placements {

  /** A spawn position or map tile, by identity (it stands for a `Transform`). */
  type Slot = nat

  /** A tile instantiated at `slot` and labelled with `letter` through `SetLetter`. */
  datatype Placement = Placement(slot: Slot, letter: string)

  function Slots(placements: seq<Placement>): (r: seq<Slot>)
    ensures |r| == |placements|
    ensures forall i :: 0 <= i < |r| ==> r[i] == placements[i].slot
  {
    seq(|placements|, i requires 0 <= i < |placements| => placements[i].slot)
  }
}
