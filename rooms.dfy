/** The fixed catalogue of five rooms and the cyclic left/right navigation over it. */
module Rooms {
  import opened Rules

  /** A room of the catalogue: its id and the actions placed in it. */
  datatype Room = Room(id: string, actions: seq<ActionId>)

  /** The catalogue, in navigation order. */
  const Catalogue: seq<Room> := [
    Room("bedroom", [Sleep]),
    Room("living", [Relax]),
    Room("kitchen", [Eat, DrinkWater]),
    Room("gym", [Exercise]),
    Room("bathroom", [Shower])
  ]

  /** The room the character returns to after an outside event. */
  const ReturnRoom: string := "living"

  datatype Direction = Left | Right

  /** `findIndex` on room ids: the first position holding `id`, or -1 when none does. */
  function FindIndex(rooms: seq<Room>, id: string): (r: int)
    ensures -1 <= r < |rooms|
    ensures 0 <= r ==> rooms[r].id == id && forall j :: 0 <= j < r ==> rooms[j].id != id
    ensures r == -1 ==> forall j :: 0 <= j < |rooms| ==> rooms[j].id != id
  {
    if rooms == [] then -1
    else if rooms[0].id == id then 0
    else
      var k := FindIndex(rooms[1..], id);
      if k == -1 then -1 else k + 1
  }

  /** `id` names a room of the catalogue. */
  predicate Known(id: string) {
    exists k :: 0 <= k < |Catalogue| && Catalogue[k].id == id
  }

  /** getCurrentRoom: the catalogue room with this id, or the first room when the
      id is unknown. */
  function CurrentRoom(id: string): (r: Room)
    ensures r in Catalogue
    ensures Known(id) ==> r.id == id
    ensures !Known(id) ==> r == Catalogue[0]
  {
    var k := FindIndex(Catalogue, id);
    if k >= 0 then Catalogue[k] else Catalogue[0]
  }

  /** The index navigation moves to from `current` (-1 stands for an unknown room):
      one step around the cycle of five rooms, where an unknown room counts as
      sitting just before the first one. */
  function NextIndex(current: int, dir: Direction): (r: nat)
    requires -1 <= current < |Catalogue|
    ensures r < |Catalogue|
    ensures 0 <= current && dir == Left ==> r == (current + |Catalogue| - 1) % |Catalogue|
    ensures 0 <= current && dir == Right ==> r == (current + 1) % |Catalogue|
    ensures current == -1 ==> r == (if dir == Left then |Catalogue| - 1 else 0)
  {
    match dir
    case Left => if current > 0 then current - 1 else |Catalogue| - 1
    case Right => if current < |Catalogue| - 1 then current + 1 else 0
  }

  /** No two rooms of the catalogue share an id. */
  lemma CatalogueIdsDistinct()
    ensures forall j, k :: 0 <= j < k < |Catalogue| ==> Catalogue[j].id != Catalogue[k].id
  {
    assert "bedroom" != "living" && "bedroom" != "kitchen" && "bedroom" != "gym" && "bedroom" != "bathroom";
    assert "living" != "kitchen" && "living" != "gym" && "living" != "bathroom";
    assert "kitchen" != "gym" && "kitchen" != "bathroom" && "gym" != "bathroom";
  }

  /** Since no two rooms share an id, each id is found at its own position. */
  lemma IndexOfCatalogueRoom(k: nat)
    requires k < |Catalogue|
    ensures FindIndex(Catalogue, Catalogue[k].id) == k
  {
    CatalogueIdsDistinct();
  }

  /** navigateRoom: the id of the room reached from room `id` in direction `dir`.
      From the room at position k it is the room at the next position around the
      cycle; from an unknown room, left reaches the last room and right the first. */
  function Navigate(id: string, dir: Direction): (r: string)
    ensures Known(r)
    ensures forall k :: 0 <= k < |Catalogue| && Catalogue[k].id == id ==> r == Catalogue[NextIndex(k, dir)].id
    ensures !Known(id) ==> r == Catalogue[if dir == Left then |Catalogue| - 1 else 0].id
  {
    CatalogueIdsDistinct();
    Catalogue[NextIndex(FindIndex(Catalogue, id), dir)].id
  }

  /** Left then right, or right then left, returns to a catalogue room; from an
      unknown room they end in the first or the last room. */
  lemma LeftRightInverse(id: string)
    ensures Known(id) ==> Navigate(Navigate(id, Left), Right) == id
    ensures Known(id) ==> Navigate(Navigate(id, Right), Left) == id
    ensures !Known(id) ==> Navigate(Navigate(id, Left), Right) == Catalogue[0].id
    ensures !Known(id) ==> Navigate(Navigate(id, Right), Left) == Catalogue[|Catalogue| - 1].id
  {
    var i := FindIndex(Catalogue, id);
    var l := NextIndex(i, Left);
    var r := NextIndex(i, Right);
    IndexOfCatalogueRoom(l);
    IndexOfCatalogueRoom(r);
  }

  /** Five steps in the same direction come back to the room one started from. */
  lemma FiveStepsCycle(k: nat, dir: Direction)
    requires k < |Catalogue|
    ensures Navigate(Navigate(Navigate(Navigate(Navigate(Catalogue[k].id, dir), dir), dir), dir), dir)
            == Catalogue[k].id
  {
    var k1 := NextIndex(k, dir);
    var k2 := NextIndex(k1, dir);
    var k3 := NextIndex(k2, dir);
    var k4 := NextIndex(k3, dir);
    assert NextIndex(k4, dir) == k;
    var id1 := Navigate(Catalogue[k].id, dir);
    assert id1 == Catalogue[k1].id;
    var id2 := Navigate(id1, dir);
    assert id2 == Catalogue[k2].id;
    var id3 := Navigate(id2, dir);
    assert id3 == Catalogue[k3].id;
    var id4 := Navigate(id3, dir);
    assert id4 == Catalogue[k4].id;
    assert Navigate(id4, dir) == Catalogue[k].id;
  }
}
