/** The ring catalog (backend/app/rings.py): a fixed ordered sequence of four
    stages and the index arithmetic over it. The ring index is the rollout's
    only progression cursor. */
module Rings {
  import opened Wrappers
  import opened Schemas

  /** `RINGS`, in rollout order. */
  const RINGS: seq<Ring> := [Pilot, Five, TwentyFive, All]

  /** True of the indices `ring_for` accepts. */
  predicate ValidIndex(i: int)
  {
    0 <= i < |RINGS|
  }

  /** `index_for`: the position of a ring in the catalog. */
  function IndexFor(ring: Ring): (i: nat)
    ensures ValidIndex(i) && RINGS[i] == ring
  {
    match ring
    case Pilot => 0
    case Five => 1
    case TwentyFive => 2
    case All => 3
  }

  /** `ring_for`: the label at an index; `None` stands for the IndexError
      raised for a negative or too large index. */
  function RingFor(i: int): (r: Option<Ring>)
    ensures r.Some? <==> ValidIndex(i)
    ensures r.Some? ==> r.value == RINGS[i] && IndexFor(r.value) == i
  {
    if i < 0 || i >= |RINGS| then None else Some(RINGS[i])
  }

  /** `next_ring_index`: the following index, or `None` at (or past) the
      final ring and for any negative index. */
  function NextRingIndex(i: int): (n: Option<int>)
    ensures n.Some? <==> 0 <= i < |RINGS| - 1
    ensures n.Some? ==> n.value == i + 1 && ValidIndex(n.value)
  {
    if i < 0 || i >= |RINGS| - 1 then None else Some(i + 1)
  }

  /** `is_final_ring`: true from the last index upwards (also for indices
      past the end), false for every negative index. */
  function IsFinalRing(i: int): (b: bool)
    ensures b <==> i >= |RINGS| - 1
    ensures ValidIndex(i) ==> (b <==> NextRingIndex(i).None?)
  {
    i >= |RINGS| - 1
  }

  /** The catalog is exactly pilot, five, twentyfive, all, and `index_for`
      and `ring_for` are inverse to each other on the valid indices. */
  lemma CatalogRoundTrip()
    ensures |RINGS| == 4
    ensures [RINGS[0].Label(), RINGS[1].Label(), RINGS[2].Label(), RINGS[3].Label()]
            == ["pilot", "five", "twentyfive", "all"]
    ensures forall i :: ValidIndex(i) ==> RingFor(i).Some? && IndexFor(RingFor(i).value) == i
    ensures forall r: Ring :: RingFor(IndexFor(r)) == Some(r)
  {
  }
}
