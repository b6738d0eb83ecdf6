/**
  The collaborators the core works with, as plain records: every simulated object
  (planet, ship, station, jumphole) is an `Entity`. Object identity is carried by the
  `id` handle; the classes behind them (Ship, Station, Planet, Jumphole) are not part
  of this model, only the attributes the core reads and writes.
 */
module Entities {
  import opened Wrappers
  import opened Seqs

  /** Entity.State. */
  datatype State = Alive | Dead

  /** Ship.Behavior; the core only ever sets PATROL, and a ship nobody set keeps `Unset`. */
  datatype Behavior = Unset | Patrolling | OtherBehavior(tag: string)

  /** Which class the object is, with what is particular to it. */
  datatype Kind =
    | Planet(texture: string, diameter: int)
    | Ship
    | Station
    | Jumphole(out: string)

  datatype Entity = Entity(
    id: nat,
    kind: Kind,
    name: string,
    x: int,
    y: int,
    state: State,
    faction: string,
    template: Option<string>,   // the loadout a ship was built from, if any
    hull: string,               // the ship type (`getType`)
    install: string,            // equipment string handed to setLoadout / setEquip
    cargo: string,              // initial cargo string
    behavior: Behavior,
    pilot: string,
    lastBlow: string,           // faction of the ship that dealt the last blow
    system: string              // name of the current system, "" when never set
  )

  /** A freshly constructed object at the origin, alive, with nothing else set. */
  function Blank(id: nat, kind: Kind, name: string, hull: string): Entity {
    Entity(id, kind, name, 0, 0, Alive, "", None, hull, "", "", Unset, "", "", "")
  }

  /** The system accessors `getShipList`, `getStationList` and `getCelestialList`, as filters over the members. */
  function ShipList(members: seq<Entity>): seq<Entity> {
    Filter(members, (e: Entity) => e.kind.Ship?)
  }

  function StationList(members: seq<Entity>): seq<Entity> {
    Filter(members, (e: Entity) => e.kind.Station?)
  }

  predicate IsCelestial(e: Entity) {
    e.kind.Planet? || e.kind.Jumphole?
  }

  function CelestialList(members: seq<Entity>): seq<Entity> {
    Filter(members, IsCelestial)
  }

  /** `Random.nextInt(bound)`: the caller supplies a raw draw, reduced into [0, bound). */
  function NextInt(bound: nat, raw: nat): (r: nat)
    requires bound > 0
    ensures r < bound
  {
    raw % bound
  }
}
