/** The ship record of js/state.js: the player's single ship, a plain
    record inside GameState whose fields the game overwrites.  Its weapon
    slots and mounted guns are records too. */
module ShipRecord {

  /** A slot's `type` string, 'cannon' or 'swivel'; also what a shop item
      mounts. */
  datatype MountKind = Cannon | Swivel

  /** A weapon slot: a fixed local offset on the hull, the direction it
      faces and the width of its firing arc. */
  datatype Slot = Slot(x: real, y: real, angle: real, arc: real, kind: MountKind)

  /** A mounted gun, bound to one slot by index. */
  datatype Mount = Mount(loaded: real, slotIndex: int)

  datatype Ship = Ship(
    x: real, y: real,
    w: int, h: int,
    rotation: real,
    hp: real, maxHp: real,
    tier: int,
    slots: seq<Slot>,
    cannons: seq<Mount>,
    crew: int,
    bilgeLevel: int,
    bilgeCrew: int,
    hasCaptain: bool,
    sinking: bool,
    sinkProgress: real,
    sinkAngle: real)

  /** The ship literal in GameState's initial value. */
  const InitialShip: Ship :=
    Ship(0.0, 0.0, 60, 140, 0.0, 100.0, 100.0, 1, [], [], 0, 0, 0, false, false, 0.0, 0.0)

  /** The guns are bound to pairwise different slots. */
  predicate MountsDistinct(ship: Ship) {
    forall i, j :: 0 <= i < j < |ship.cannons| ==> ship.cannons[i].slotIndex != ship.cannons[j].slotIndex
  }

  /** Every gun is bound to a slot the hull has. */
  predicate MountsInRange(ship: Ship) {
    forall i :: 0 <= i < |ship.cannons| ==> 0 <= ship.cannons[i].slotIndex < |ship.slots|
  }
}
