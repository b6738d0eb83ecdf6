/**
  A solar system: a zone of the universe that owns the ordered list of the objects in
  it, builds that list from the template records when the world is generated, and runs
  each member's per-tick update, dropping the members that die.
 */
module SolarSystems {
  import opened Wrappers
  import opened Seqs
  import opened Entities
  import opened Placement
  import opened ZoneUpdate

  class SolarSystem {
    var name: string
    /** The faction holding sovereignty over the system (the `getOwner` accessor). */
    var owner: string
    var x: int
    var y: int
    /** The members, in the order they were added. */
    var celestials: seq<Entity>

    /**
      Creates the system and generates its members from the records of all systems; the
      first member gets handle `firstId`, the next `firstId + 1`, and so on.
     */
    constructor (name: string, owner: string, planets: seq<Record>, ships: seq<Record>, stations: seq<Record>,
                 jumpholes: seq<Record>, shipRolls: seq<Roll>, stationRolls: seq<Roll>, firstId: nat)
      requires |shipRolls| == |ships| && |stationRolls| == |stations|
      ensures this.name == name && this.owner == owner && x == 0 && y == 0
      ensures celestials == Generated(name, planets, ships, stations, jumpholes, shipRolls, stationRolls, firstId)
    {
      this.name := name;
      this.owner := owner;
      x, y := 0, 0;
      celestials := [];
      new;
      AddMatching(planets, NoRolls(|planets|), firstId);
      AddMatching(ships, shipRolls, firstId);
      AddMatching(stations, stationRolls, firstId);
      AddMatching(jumpholes, NoRolls(|jumpholes|), firstId);
    }

    /** One of generateSystem's loops: add a member for every record of this system. */
    method AddMatching(recs: seq<Record>, rolls: seq<Roll>, firstId: nat)
      requires |rolls| == |recs|
      modifies this`celestials
      ensures celestials == AddMembers(old(celestials), recs, rolls, name, firstId)
    {
      var a := 0;
      while a < |recs|
        invariant 0 <= a <= |recs|
        invariant AddMembers(celestials, recs[a..], rolls[a..], name, firstId)
               == AddMembers(old(celestials), recs, rolls, name, firstId)
      {
        AddMembersAt(celestials, recs, rolls, name, firstId, a);
        if recs[a].system == name {
          var e;
          match recs[a] {
            case PlanetRecord(_, _, _, _, _, _) =>
              e := MakePlanet(recs[a], firstId + |celestials|);
            case ShipRecord(_, _, _, _, _, _, _, _, _) =>
              e := MakeShip(recs[a], rolls[a], firstId + |celestials|);
            case StationRecord(_, _, _, _, _, _, _) =>
              e := MakeStation(recs[a], rolls[a], firstId + |celestials|);
            case JumpholeRecord(_, _, _, _, _) =>
              e := MakeJumphole(recs[a], firstId + |celestials|);
          }
          assert e == Make(celestials, recs[a], rolls[a], firstId + |celestials|, name);
          celestials := celestials + [e];
        }
        a := a + 1;
      }
    }

    /** makePlanet: a planet at the position its record gives. */
    method MakePlanet(rec: Record, id: nat) returns (planet: Entity)
      requires rec.PlanetRecord?
      ensures forall roll :: planet == Make(celestials, rec, roll, id, name)
    {
      planet := Blank(id, Planet(rec.texture, rec.diameter), rec.name, "").(x := rec.x, y := rec.y);
    }

    /** makeJumphole: a jumphole at the position its record gives, leading to `out`. */
    method MakeJumphole(rec: Record, id: nat) returns (jumphole: Entity)
      requires rec.JumpholeRecord?
      ensures forall roll :: jumphole == Make(celestials, rec, roll, id, name)
    {
      jumphole := Blank(id, Jumphole(rec.out), rec.name, "").(x := rec.x, y := rec.y, system := name);
    }

    /** The first member called `near`, searched in list order. */
    method Anchor(near: string) returns (k: Option<nat>)
      ensures k.Some? ==> k.value < |celestials| && celestials[k.value].name == near
      ensures k.Some? ==> forall j :: 0 <= j < k.value ==> celestials[j].name != near
      ensures k.None? <==> forall j :: 0 <= j < |celestials| ==> celestials[j].name != near
      ensures k == FirstIndex(celestials, (e: Entity) => e.name == near)
    {
      k := None;
      var b := 0;
      while b < |celestials|
        invariant 0 <= b <= |celestials|
        invariant forall j :: 0 <= j < b ==> celestials[j].name != near
      {
        if celestials[b].name == near {
          k := Some(b);
          break;
        }
        b := b + 1;
      }
    }

    /** makeShip: a ship from its record, placed against the members added so far. */
    method MakeShip(rec: Record, roll: Roll, id: nat) returns (ship: Entity)
      requires rec.ShipRecord?
      ensures ship == Make(celestials, rec, roll, id, name)
    {
      ship := Blank(id, Ship, rec.name, rec.ship).(install := rec.install, faction := rec.faction, cargo := rec.cargo);
      if rec.near.Some? {
        var k := Anchor(rec.near.value);
        if k.Some? {
          var host := celestials[k.value];
          ship := ship.(x := host.x + NextInt(1600, roll.first) - 800, y := host.y + NextInt(1900, roll.second) - 800);
        }
      } else if rec.sx.Some? && rec.sy.Some? {
        ship := ship.(x := rec.sx.value, y := rec.sy.value);
      } else {
        ship := ship.(x := NextInt(1000000, roll.first), y := NextInt(1000000, roll.second));
      }
      ship := ship.(system := name);
    }

    /** makeStation: as makeShip, with the vertical jitter of stations. */
    method MakeStation(rec: Record, roll: Roll, id: nat) returns (station: Entity)
      requires rec.StationRecord?
      ensures station == Make(celestials, rec, roll, id, name)
    {
      station := Blank(id, Station, rec.name, rec.ship).(faction := rec.faction);
      if rec.near.Some? {
        var k := Anchor(rec.near.value);
        if k.Some? {
          var host := celestials[k.value];
          station := station.(x := host.x + NextInt(1600, roll.first) - 800, y := host.y + NextInt(1600, roll.second) - 800);
        }
      } else if rec.sx.Some? && rec.sy.Some? {
        station := station.(x := rec.sx.value, y := rec.sy.value);
      } else {
        station := station.(x := NextInt(1000000, roll.first), y := NextInt(1000000, roll.second));
      }
      station := station.(system := name);
    }

    /** Appends one member and leaves the others as they were. */
    method PutEntityInSystem(entity: Entity)
      modifies this`celestials
      ensures celestials == old(celestials) + [entity]
    {
      celestials := celestials + [entity];
    }

    /** Removes the first member that is `entity` (same handle); nothing happens when it is absent. */
    method PullEntityFromSystem(entity: Entity)
      modifies this`celestials
      ensures celestials == RemoveFirst(old(celestials), (e: Entity) => e.id == entity.id)
      ensures (forall j :: 0 <= j < |old(celestials)| ==> old(celestials)[j].id != entity.id) ==> celestials == old(celestials)
    {
      celestials := RemoveFirst(celestials, (e: Entity) => e.id == entity.id);
    }

    /** init: every member's own initialisation (`prepare`), in order. */
    method Init(prepare: Entity -> Entity)
      modifies this`celestials
      ensures |celestials| == |old(celestials)|
      ensures forall i :: 0 <= i < |celestials| ==> celestials[i] == prepare(old(celestials)[i])
    {
      var a := 0;
      while a < |celestials|
        invariant 0 <= a <= |celestials| == |old(celestials)|
        invariant forall i :: 0 <= i < a ==> celestials[i] == prepare(old(celestials)[i])
        invariant forall i :: a <= i < |celestials| ==> celestials[i] == old(celestials)[i]
      {
        celestials := celestials[a := prepare(celestials[a])];
        a := a + 1;
      }
    }

    /**
      periodicUpdate as written: update the member at index `a`, remove it when it is
      DEAD, and advance `a` in either case.
     */
    method PeriodicUpdate(step: Entity -> Entity)
      modifies this`celestials
      ensures celestials == Pass(old(celestials), step)
    {
      var a := 0;
      while a < |celestials|
        invariant a <= |celestials| ==> celestials[..a] + Pass(celestials[a..], step) == Pass(old(celestials), step)
        invariant a == |celestials| + 1 ==> celestials == Pass(old(celestials), step)
        invariant a <= |celestials| + 1
        decreases |celestials| + 1 - a
      {
        if step(celestials[a]).state == Dead {
          PassStepDead(celestials, a, step);
        } else {
          PassStepLive(celestials, a, step);
        }
        celestials := celestials[a := step(celestials[a])];
        if celestials[a].state == Dead {
          celestials := celestials[..a] + celestials[a + 1..];
        }
        a := a + 1;
      }
      if a == |celestials| {
        assert celestials[..a] == celestials && celestials[a..] == [];
      }
    }

    /** The corrected pass: the index advances only past a member that stays. */
    method PeriodicUpdateFixed(step: Entity -> Entity)
      modifies this`celestials
      ensures celestials == TickAll(old(celestials), step)
    {
      var a := 0;
      while a < |celestials|
        invariant 0 <= a <= |celestials|
        invariant celestials[..a] + TickAll(celestials[a..], step) == TickAll(old(celestials), step)
        decreases |celestials| - a
      {
        TickAllStep(celestials, a, step);
        var updated := step(celestials[a]);
        if updated.state == Dead {
          celestials := celestials[..a] + celestials[a + 1..];
        } else {
          celestials := celestials[a := updated];
          a := a + 1;
        }
      }
      assert celestials[..a] == celestials && celestials[a..] == [];
    }
  }

  /** The member lists of some systems, in order. */
  function Members(systems: seq<SolarSystem>): (m: seq<seq<Entity>>)
    reads systems
    ensures |m| == |systems|
    ensures forall i :: 0 <= i < |systems| ==> m[i] == systems[i].celestials
  {
    seq(|systems|, i reads systems requires 0 <= i < |systems| => systems[i].celestials)
  }
}
