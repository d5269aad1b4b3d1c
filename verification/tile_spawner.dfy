/**
 * The spawner the question bank uses (Assets/Scripts/TileSpawner.cs): it
 * keeps the map tiles in a list, shuffles that list in place each round and
 * puts answer letter `i` on the `i`-th map tile of the shuffled list.
 */
module TileSpawning {
  import opened FisherYates
  import opened Placements

  class TileSpawner {
    const mapTiles: array<Slot>

    /** `Start`: the children of the map-tile parent, in order. */
    constructor (children: seq<Slot>)
      ensures fresh(mapTiles) && mapTiles[..] == children
    {
      mapTiles := new Slot[|children|](i requires 0 <= i < |children| => children[i]);
    }

    /** The shuffle of the map tiles; the list stays a permutation of itself. */
    method Shuffle(picks: seq<int>)
      requires ValidPicks(picks, mapTiles.Length)
      modifies mapTiles
      ensures mapTiles[..] == Shuffled(old(mapTiles[..]), picks, 0)
      ensures multiset(mapTiles[..]) == multiset(old(mapTiles[..]))
    {
      ShuffleInPlace(mapTiles, picks);
    }

    /**
     * Shuffles the map tiles, then instantiates one tile per answer letter
     * while there are map tiles: letter `i` on the shuffled `mapTiles[i]`.
     */
    method SpawnLetterTiles(answer: string, picks: seq<int>) returns (placements: seq<Placement>)
      requires ValidPicks(picks, mapTiles.Length)
      modifies mapTiles
      ensures mapTiles[..] == Shuffled(old(mapTiles[..]), picks, 0)
      ensures |placements| == if |answer| < mapTiles.Length then |answer| else mapTiles.Length
      ensures forall i :: 0 <= i < |placements| ==> placements[i] == Placement(mapTiles[i], [answer[i]])
      ensures Slots(placements) == mapTiles[..|placements|]
    {
      Shuffle(picks);
      placements := PlaceAnswer(answer, mapTiles[..]);
    }
  }

  /** The `for` loop of `SpawnLetterTiles` over the shuffled map tiles `tiles`. */
  method PlaceAnswer(answer: string, tiles: seq<Slot>) returns (placements: seq<Placement>)
    ensures |placements| == if |answer| < |tiles| then |answer| else |tiles|
    ensures forall i :: 0 <= i < |placements| ==> placements[i] == Placement(tiles[i], [answer[i]])
    ensures Slots(placements) == tiles[..|placements|]
  {
    placements := [];
    var i := 0;
    while i < |answer|
      invariant 0 <= i <= |answer|
      invariant |placements| == if i < |tiles| then i else |tiles|
      invariant forall j :: 0 <= j < |placements| ==> placements[j] == Placement(tiles[j], [answer[j]])
    {
      if i < |tiles| {
        placements := placements + [Placement(tiles[i], [answer[i]])];
      }
      i := i + 1;
    }
  }

  /**
   * Distinct map tiles give every spawned letter its own tile: the slots of
   * the placements are a prefix of the shuffled list, which stays distinct.
   */
  lemma PlacementSlotsDistinct(tiles: seq<Slot>, picks: seq<int>, placements: seq<Placement>)
    requires ValidPicks(picks, |tiles|) && Distinct(tiles)
    requires |placements| <= |tiles|
    requires Slots(placements) == Shuffled(tiles, picks, 0)[..|placements|]
    ensures Distinct(Slots(placements))
  {
    ShuffledDistinct(tiles, picks, 0);
  }
}
