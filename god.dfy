/**
  The controller that keeps the universe populated. On every update it visits the
  factions in order; for each faction with a patrol list it first counts, per loadout,
  the faction's ships across the systems it owns, and only then spawns one ship for
  every loadout that is below its density, near a celestial of a system the faction
  owns. Random draws are supplied by the caller; a draw from an empty list throws, and
  the throw ends the whole update.
 */
module Engine {
  import opened Wrappers
  import opened Seqs
  import opened Entities
  import opened PatrolRules
  import opened SolarSystems

  /** What the patrol rules see of the systems: the name, owner and members of each. */
  function Views(systems: seq<SolarSystem>): (v: seq<Zone>)
    reads systems
    ensures |v| == |systems|
    ensures forall i :: 0 <= i < |systems| ==> v[i] == Zone(systems[i].name, systems[i].owner, systems[i].celestials)
  {
    seq(|systems|, i reads systems requires 0 <= i < |systems| => Zone(systems[i].name, systems[i].owner, systems[i].celestials))
  }

  class God {
    /** The universe's systems, in the order the universe lists them. */
    const systems: seq<SolarSystem>
    /** The factions read from the faction records, each with its patrol list. */
    const factions: seq<Faction>
    /** The loadout records makeShip searches. */
    const loadouts: seq<Loadout>

    /** Every system is a different object, so spawning into one leaves the others alone. */
    predicate Valid() {
      forall i, j :: 0 <= i < j < |systems| ==> systems[i] != systems[j]
    }

    constructor (systems: seq<SolarSystem>, factions: seq<Faction>, loadouts: seq<Loadout>)
      requires forall i, j :: 0 <= i < j < |systems| ==> systems[i] != systems[j]
      ensures Valid()
      ensures this.systems == systems && this.factions == factions && this.loadouts == loadouts
    {
      this.systems := systems;
      this.factions := factions;
      this.loadouts := loadouts;
    }

    /**
      periodicUpdate: the patrol check, with any throw caught and reported. Returns
      whether a throw was reported.
     */
    method PeriodicUpdate(rolls: seq<seq<SpawnRoll>>, firstId: nat) returns (reported: bool)
      requires Valid() && RollsFit(factions, rolls)
      modifies systems`celestials
      ensures var r := PatrolsUpTo(old(Views(systems)), factions, loadouts, rolls, firstId, |factions|);
        Views(systems) == r.zones && reported == r.threw
    {
      var count;
      count, reported := CheckPatrols(rolls, firstId);
    }

    /**
      checkPatrols: doPatrols for each faction in turn; the ships spawned for faction f
      are numbered on from those of the factions before it. Returns how many ships were
      spawned and whether a draw threw, which ends the loop.
     */
    method CheckPatrols(rolls: seq<seq<SpawnRoll>>, firstId: nat) returns (count: nat, threw: bool)
      requires Valid() && RollsFit(factions, rolls)
      modifies systems`celestials
      ensures var r := PatrolsUpTo(old(Views(systems)), factions, loadouts, rolls, firstId, |factions|);
        Views(systems) == r.zones && count == r.count && threw == r.threw
    {
      ghost var zones := Views(systems);
      ghost var trace := RoundTrace(zones, factions, loadouts, rolls, firstId);
      count, threw := 0, false;
      var a := 0;
      while a < |factions|
        invariant 0 <= a <= |factions|
        invariant trace[a] == Round(Views(systems), count, false)
      {
        count, threw := PatrolTurn(rolls, firstId, trace, zones, a, count);
        if threw {
          RoundTraceThrownStays(trace, zones, factions, loadouts, rolls, firstId, a + 1);
          assert trace[|factions|] == Round(Views(systems), count, threw);
          return;
        }
        a := a + 1;
      }
      assert trace[|factions|] == Round(Views(systems), count, threw);
    }

    /** One pass of checkPatrols' loop: doPatrols for faction a, numbering its ships on from `count`. */
    method PatrolTurn(rolls: seq<seq<SpawnRoll>>, firstId: nat, ghost trace: seq<Round>, ghost zones: seq<Zone>, a: nat, count: nat)
      returns (after: nat, threw: bool)
      requires Valid() && RollsFit(factions, rolls) && a < |factions|
      requires IsRoundTrace(trace, zones, factions, loadouts, rolls, firstId)
      requires trace[a] == Round(Views(systems), count, false)
      modifies systems`celestials
      ensures trace[a + 1] == Round(Views(systems), after, threw)
    {
      ghost var s := PatrolsOf(Views(systems), factions[a], loadouts, rolls[a], firstId + count);
      RoundTraceStep(trace, zones, factions, loadouts, rolls, firstId, a, trace[a], s);
      var spawned;
      spawned, threw := DoPatrols(factions[a], rolls[a], firstId + count);
      after := count + |spawned|;
    }

    /**
      doPatrols for one faction: nothing without patrol entries; otherwise count every
      loadout over the owned systems into count[], then spawn one ship for each entry
      short of its density. Returns the entries spawned for, in order, and whether a
      draw threw.
     */
    method DoPatrols(faction: Faction, rolls: seq<SpawnRoll>, firstId: nat) returns (spawned: seq<nat>, threw: bool)
      requires Valid() && |rolls| == |faction.patrols|
      modifies systems`celestials
      ensures Sweep(Views(systems), spawned, threw) == PatrolsOf(old(Views(systems)), faction, loadouts, rolls, firstId)
    {
      spawned, threw := [], false;
      if |faction.patrols| > 0 {
        var count := CountLoadouts(faction);
        ghost var zones := Views(systems);
        ghost var totals := Totals(zones, faction);
        spawned, threw := TopUp(faction, count, totals, SweepTrace(zones, faction, loadouts, totals, rolls, firstId), rolls, firstId);
      }
    }

    /**
      The spawning phase of doPatrols: one patrol for every entry whose count is below its
      density, in entry order; a draw that throws ends the phase. `trace` is the phase's
      trace from the systems as they are on entry.
     */
    method TopUp(faction: Faction, count: array<int>, ghost totals: seq<nat>, ghost trace: seq<Sweep>, rolls: seq<SpawnRoll>, firstId: nat)
      returns (spawned: seq<nat>, threw: bool)
      requires Valid() && WellRolled(faction, totals, rolls) && count.Length == |totals|
      requires forall v :: 0 <= v < count.Length ==> count[v] == totals[v]
      requires IsSweepTrace(trace, Views(systems), faction, loadouts, totals, rolls, firstId)
      modifies systems`celestials
      ensures trace[|totals|] == Sweep(Views(systems), spawned, threw)
    {
      ghost var zones := Views(systems);
      spawned, threw := [], false;
      var a := 0;
      while a < count.Length
        invariant 0 <= a <= count.Length
        invariant forall v :: 0 <= v < count.Length ==> count[v] == totals[v]
        invariant trace[a] == Sweep(Views(systems), spawned, false)
      {
        spawned, threw := CheckDensity(faction, count[a], totals, trace, zones, rolls, firstId, spawned, a);
        if threw {
          TraceThrownStays(trace, zones, faction, loadouts, totals, rolls, firstId, a + 1);
          return;
        }
        a := a + 1;
      }
    }

    /** One pass of the spawning loop: entry a spawns a patrol when its count is below its density. */
    method CheckDensity(faction: Faction, count: int, ghost totals: seq<nat>, ghost trace: seq<Sweep>, ghost zones: seq<Zone>,
                        rolls: seq<SpawnRoll>, firstId: nat, spawned: seq<nat>, a: nat) returns (after: seq<nat>, threw: bool)
      requires Valid() && WellRolled(faction, totals, rolls) && a < |totals| && count == totals[a]
      requires IsSweepTrace(trace, zones, faction, loadouts, totals, rolls, firstId)
      requires trace[a] == Sweep(Views(systems), spawned, false)
      modifies systems`celestials
      ensures trace[a + 1] == Sweep(Views(systems), after, threw)
    {
      after, threw := spawned, false;
      if (count as real) < faction.patrols[a].density {
        TraceStepShort(trace, zones, faction, loadouts, totals, rolls, firstId, a, trace[a]);
        threw := SpawnPatrol(faction.name, faction.patrols[a], rolls[a], firstId + |spawned|);
        if !threw {
          after := spawned + [a];
        }
      } else {
        TraceStepLong(trace, zones, faction, loadouts, totals, rolls, firstId, a);
      }
    }

    /**
      The counting phase of doPatrols: count[v] is the number of the faction's ships of
      entry v's loadout over all the systems it owns, counted before anything spawns.
     */
    method CountLoadouts(faction: Faction) returns (count: array<int>)
      ensures fresh(count) && count.Length == |faction.patrols|
      ensures forall v :: 0 <= v < count.Length ==> count[v] == Totals(Views(systems), faction)[v]
    {
      ghost var zones := Views(systems);
      count := new int[|faction.patrols|](_ => 0);
      var a := 0;
      while a < |systems|
        modifies count
        invariant 0 <= a <= |systems|
        invariant forall v :: 0 <= v < count.Length ==> count[v] == Total(zones[..a], faction.name, faction.patrols[v].loadout)
      {
        AddSystemCounts(faction, systems[a], count);
        forall w | 0 <= w < count.Length
          ensures count[w] == Total(zones[..a + 1], faction.name, faction.patrols[w].loadout)
        {
          TotalSnoc(zones, a, faction.name, faction.patrols[w].loadout);
        }
        a := a + 1;
      }
      assert zones[..a] == zones;
    }

    /** One system's share of the counting phase: nothing unless the faction owns it. */
    method AddSystemCounts(faction: Faction, sys: SolarSystem, count: array<int>)
      requires count.Length == |faction.patrols|
      modifies count
      ensures forall w :: 0 <= w < count.Length ==>
        count[w] == old(count[w]) + (if sys.owner == faction.name then PatrolRules.CountShipsByLoadout(faction.name, sys.celestials, faction.patrols[w].loadout) else 0)
    {
      if sys.owner == faction.name {
        var v := 0;
        while v < count.Length
          invariant 0 <= v <= count.Length
          invariant forall w :: 0 <= w < v ==> count[w] == old(count[w]) + PatrolRules.CountShipsByLoadout(faction.name, sys.celestials, faction.patrols[w].loadout)
          invariant forall w :: v <= w < count.Length ==> count[w] == old(count[w])
        {
          var num := CountShipsByLoadout(faction, sys, faction.patrols[v].loadout);
          count[v] := count[v] + num;
          v := v + 1;
        }
      }
    }

    /**
      The body of doPatrols' spawning loop for an entry short of its density: draw a
      system of the faction's sovereignty, a celestial of it, and an offset in
      [-4000, 4000) on each axis, then spawn a patrol there. The draw from an empty list
      throws before anything changes.
     */
    method SpawnPatrol(faction: string, patrol: Patrol, roll: SpawnRoll, id: nat) returns (threw: bool)
      requires Valid()
      modifies systems`celestials
      ensures threw <==> Placed(old(Views(systems)), faction, loadouts, patrol, roll, id).None?
      ensures !threw ==> Views(systems) == Placed(old(Views(systems)), faction, loadouts, patrol, roll, id).value
      ensures threw ==> Views(systems) == old(Views(systems))
    {
      var spot := DrawSpot(faction, roll);
      if spot.None? {
        return true;
      }
      SpawnInto(faction, spot.value.zone, spot.value, patrol, id);
      threw := false;
    }

    /**
      The draws of one spawn: a system the faction owns, a celestial of that system, and
      an offset from it; None where a draw is from an empty list and throws.
     */
    method DrawSpot(faction: string, roll: SpawnRoll) returns (spot: Option<Spot>)
      ensures spot == Request(Views(systems), faction, roll)
    {
      var sov := SovIndices(Views(systems), faction);
      if |sov| == 0 {
        return None;
      }
      var z := sov[NextInt(|sov|, roll.system)];
      var pick := systems[z];
      var planets := CelestialList(pick.celestials);
      if |planets| == 0 {
        return None;
      }
      var host := planets[NextInt(|planets|, roll.host)];
      var x := host.x + NextInt(8000, roll.dx) - 4000;
      var y := host.y + NextInt(8000, roll.dy) - 4000;
      spot := Some(Spot(z, x, y));
    }

    /** The spawnShip call of one spawn: system z gains exactly the patrol ship, and no other system changes. */
    method SpawnInto(faction: string, z: nat, spot: Spot, patrol: Patrol, id: nat)
      requires Valid() && z < |systems|
      modifies systems`celestials
      ensures Views(systems) == Put(old(Views(systems)), z, Spawned(loadouts, faction, patrol, spot, id, old(Views(systems))[z].name, Patrolling))
    {
      ghost var before := Views(systems);
      var pick := systems[z];
      ghost var e := Spawned(loadouts, faction, patrol, spot, id, pick.name, Patrolling);
      SpawnShip(faction, pick, spot, patrol, Patrolling, id);
      ghost var after := Zone(pick.name, pick.owner, pick.celestials);
      assert after == before[z].(members := before[z].members + [e]);
      forall i | 0 <= i < |systems| ensures Views(systems)[i] == Put(before, z, e)[i] {
        if i != z {
          assert systems[i] != pick;
        } else {
          assert Views(systems)[i] == after;
        }
      }
      assert Views(systems) == Put(before, z, e);
    }

    /** spawnShip: build a ship of `patrol`'s loadout, place it at `loc` with `behavior`, and append it to `system`. */
    method SpawnShip(faction: string, system: SolarSystem, loc: Spot, patrol: Patrol, behavior: Behavior, id: nat)
      modifies system`celestials
      ensures system.celestials == old(system.celestials) + [Spawned(loadouts, faction, patrol, loc, id, system.name, behavior)]
    {
      var name := patrol.loadout;
      var ship := MakeShip(Some(patrol.loadout), name, faction, id);
      ship := ship.(x := loc.x, y := loc.y);
      ship := ship.(behavior := behavior);
      ship := ship.(system := system.name);
      system.PutEntityInSystem(ship);
    }

    /**
      makeShip: the hull, equipment and cargo of the first loadout record named
      `template`, or the default hull with nothing installed when there is no template
      or no record of that name.
     */
    method MakeShip(template: Option<string>, name: string, faction: string, id: nat) returns (ship: Entity)
      ensures ship == Fitted(loadouts, template, name, faction, id)
    {
      var cargo, install, hull := "", "", DefaultHull;
      if template.Some? {
        var a := 0;
        while a < |loadouts|
          invariant 0 <= a <= |loadouts|
          invariant forall j :: 0 <= j < a ==> loadouts[j].name != template.value
        {
          if loadouts[a].name == template.value {
            cargo, install, hull := loadouts[a].cargo, loadouts[a].install, loadouts[a].ship;
            break;
          }
          a := a + 1;
        }
      }
      ship := Blank(id, Ship, name, hull);
      if template.Some? {
        ship := ship.(template := template);
      }
      ship := ship.(install := install);
      ship := ship.(faction := faction);
      ship := ship.(cargo := cargo);
    }

    /** countShipsByLoadout: the ships of the system's ship list flying for `faction` and built from `loadout`. */
    method CountShipsByLoadout(faction: Faction, system: SolarSystem, loadout: string) returns (count: nat)
      ensures count == PatrolRules.CountShipsByLoadout(faction.name, system.celestials, loadout)
    {
      count := 0;
      var ships := ShipList(system.celestials);
      var a := 0;
      while a < |ships|
        invariant 0 <= a <= |ships|
        invariant count == CountMatching(ships[..a], faction.name, ByLoadout(loadout))
      {
        var tmp := ships[a];
        if tmp.faction == faction.name {
          if tmp.template == Some(loadout) {
            count := count + 1;
          }
        }
        CountMatchingSnoc(ships, a, faction.name, ByLoadout(loadout));
        a := a + 1;
      }
      assert ships[..a] == ships;
    }

    /** countShipsByRole: the ships of the system's ship list flying for `faction` with `behavior`. */
    method CountShipsByRole(faction: Faction, system: SolarSystem, behavior: Behavior) returns (count: nat)
      ensures count == PatrolRules.CountShipsByRole(faction.name, system.celestials, behavior)
    {
      count := 0;
      var ships := ShipList(system.celestials);
      var a := 0;
      while a < |ships|
        invariant 0 <= a <= |ships|
        invariant count == CountMatching(ships[..a], faction.name, ByRole(behavior))
      {
        var tmp := ships[a];
        if tmp.faction == faction.name {
          if tmp.behavior == behavior {
            count := count + 1;
          }
        }
        CountMatchingSnoc(ships, a, faction.name, ByRole(behavior));
        a := a + 1;
      }
      assert ships[..a] == ships;
    }
  }
}
