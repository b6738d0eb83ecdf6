/**
  How a solar system builds its members from template records when the world is
  generated: which records belong to the system, in which order they are added, and
  where ships and stations are placed.
 */
module Placement {
  import opened Wrappers
  import opened Seqs
  import opened Entities

  /**
    A template record for a member of some system, with its values already parsed.
    `near`, `sx` and `sy` are optional in the templates; the other values are required.
   */
  datatype Record =
    | PlanetRecord(system: string, name: string, texture: string, diameter: int, x: int, y: int)
    | ShipRecord(system: string, name: string, ship: string, near: Option<string>, install: string,
                 faction: string, cargo: string, sx: Option<int>, sy: Option<int>)
    | StationRecord(system: string, name: string, ship: string, near: Option<string>, faction: string,
                    sx: Option<int>, sy: Option<int>)
    | JumpholeRecord(system: string, name: string, out: string, x: int, y: int)

  /** The two raw draws one ship or station placement may consume. */
  datatype Roll = Roll(first: nat, second: nat)

  /** The outcome of placement: a position, or no call to setX/setY at all. */
  datatype Placement = Unplaced | At(x: int, y: int)

  const ShipSpanY: nat := 1900
  const StationSpanY: nat := 1600

  /**
    Placement of a ship (`spanY` 1900) or a station (`spanY` 1600): next to the first
    earlier member named `near`, else at the explicit coordinates, else anywhere in the
    square [0, 1000000)².
   */
  function Place(anchors: seq<Entity>, near: Option<string>, sx: Option<int>, sy: Option<int>,
                 roll: Roll, spanY: nat): (p: Placement)
    requires spanY > 0
    ensures near.Some? && FirstIndex(anchors, (e: Entity) => e.name == near.value).None? ==> p == Unplaced
    ensures near.Some? && FirstIndex(anchors, (e: Entity) => e.name == near.value).Some? ==>
      var a := anchors[FirstIndex(anchors, (e: Entity) => e.name == near.value).value];
      p.At? && -800 <= p.x - a.x < 800 && -800 <= p.y - a.y < spanY - 800
    ensures near.None? && sx.Some? && sy.Some? ==> p == At(sx.value, sy.value)
    ensures near.None? && !(sx.Some? && sy.Some?) ==> p.At? && 0 <= p.x < 1000000 && 0 <= p.y < 1000000
  {
    if near.Some? then
      match FirstIndex(anchors, (e: Entity) => e.name == near.value)
      case None => Unplaced
      case Some(k) =>
        At(anchors[k].x + NextInt(1600, roll.first) - 800, anchors[k].y + NextInt(spanY, roll.second) - 800)
    else if sx.Some? && sy.Some? then
      At(sx.value, sy.value)
    else
      At(NextInt(1000000, roll.first), NextInt(1000000, roll.second))
  }

  /** Every jitter the source can draw around an anchor is reachable by some roll. */
  lemma PlaceReachesEveryOffset(anchors: seq<Entity>, near: string, sx: Option<int>, sy: Option<int>,
                                spanY: nat, dx: int, dy: int)
    requires spanY > 0
    requires FirstIndex(anchors, (e: Entity) => e.name == near).Some?
    requires -800 <= dx < 800 && -800 <= dy < spanY - 800
    ensures var a := anchors[FirstIndex(anchors, (e: Entity) => e.name == near).value];
      Place(anchors, Some(near), sx, sy, Roll(dx + 800, dy + 800), spanY) == At(a.x + dx, a.y + dy)
  {
  }

  function Placed(e: Entity, p: Placement): Entity {
    match p
    case Unplaced => e
    case At(x, y) => e.(x := x, y := y)
  }

  /** The member built from one record; ships and stations are placed against `anchors`, the members added so far. */
  function Make(anchors: seq<Entity>, rec: Record, roll: Roll, id: nat, system: string): Entity {
    match rec
    case PlanetRecord(_, name, texture, diameter, x, y) =>
      Blank(id, Planet(texture, diameter), name, "").(x := x, y := y)
    case ShipRecord(_, name, ship, near, install, faction, cargo, sx, sy) =>
      Placed(Blank(id, Ship, name, ship).(install := install, faction := faction, cargo := cargo, system := system),
             Place(anchors, near, sx, sy, roll, ShipSpanY))
    case StationRecord(_, name, ship, near, faction, sx, sy) =>
      Placed(Blank(id, Station, name, ship).(faction := faction, system := system),
             Place(anchors, near, sx, sy, roll, StationSpanY))
    case JumpholeRecord(_, name, out, x, y) =>
      Blank(id, Jumphole(out), name, "").(x := x, y := y, system := system)
  }

  /**
    One of the four generation loops: every record whose `system` is this system adds one
    member, in record order; the member's id is its position in the list offset by `firstId`.
   */
  function AddMembers(acc: seq<Entity>, recs: seq<Record>, rolls: seq<Roll>, system: string, firstId: nat): seq<Entity>
    requires |rolls| == |recs|
    decreases |recs|
  {
    if recs == [] then acc
    else
      var acc' := if recs[0].system == system then acc + [Make(acc, recs[0], rolls[0], firstId + |acc|, system)] else acc;
      AddMembers(acc', recs[1..], rolls[1..], system, firstId)
  }

  /** One iteration of a generation loop, seen from the record at index `a`. */
  lemma AddMembersAt(acc: seq<Entity>, recs: seq<Record>, rolls: seq<Roll>, system: string, firstId: nat, a: nat)
    requires |rolls| == |recs| && a < |recs|
    ensures recs[a].system == system ==>
      AddMembers(acc, recs[a..], rolls[a..], system, firstId)
      == AddMembers(acc + [Make(acc, recs[a], rolls[a], firstId + |acc|, system)], recs[a + 1..], rolls[a + 1..], system, firstId)
    ensures recs[a].system != system ==>
      AddMembers(acc, recs[a..], rolls[a..], system, firstId) == AddMembers(acc, recs[a + 1..], rolls[a + 1..], system, firstId)
  {
    assert recs[a..][1..] == recs[a + 1..] && rolls[a..][1..] == rolls[a + 1..];
  }

  /** Rolls for the records whose builder draws nothing (planets and jumpholes). */
  function NoRolls(n: nat): (r: seq<Roll>)
    ensures |r| == n
  {
    seq(n, _ => Roll(0, 0))
  }

  /** The whole of generateSystem: planets, then ships, then stations, then jumpholes. */
  function Generated(system: string, planets: seq<Record>, ships: seq<Record>, stations: seq<Record>,
                     jumpholes: seq<Record>, shipRolls: seq<Roll>, stationRolls: seq<Roll>, firstId: nat): seq<Entity>
    requires |shipRolls| == |ships| && |stationRolls| == |stations|
  {
    var withPlanets := AddMembers([], planets, NoRolls(|planets|), system, firstId);
    var withShips := AddMembers(withPlanets, ships, shipRolls, system, firstId);
    var withStations := AddMembers(withShips, stations, stationRolls, system, firstId);
    AddMembers(withStations, jumpholes, NoRolls(|jumpholes|), system, firstId)
  }

  /** The records that belong to `system`, in order. */
  function Matching(recs: seq<Record>, system: string): seq<Record> {
    if recs == [] then [] else (if recs[0].system == system then [recs[0]] else []) + Matching(recs[1..], system)
  }

  /** Matching is the general filter, specialised to the owning system. */
  lemma {:induction false} MatchingIsFilter(recs: seq<Record>, system: string)
    ensures Matching(recs, system) == Filter(recs, (r: Record) => r.system == system)
  {
    if recs != [] {
      MatchingIsFilter(recs[1..], system);
    }
  }

  /** `e` is the member built from `rec`: same name, the right class, alive, and what the record fixes. */
  predicate Built(e: Entity, rec: Record, system: string, id: nat) {
    && e.id == id
    && e.name == rec.name
    && e.state == Alive
    && match rec
       case PlanetRecord(_, _, texture, diameter, x, y) =>
         e.kind == Planet(texture, diameter) && e.x == x && e.y == y
       case ShipRecord(_, _, ship, _, install, faction, cargo, _, _) =>
         e.kind == Ship && e.hull == ship && e.install == install && e.faction == faction
         && e.cargo == cargo && e.system == system
       case StationRecord(_, _, ship, _, faction, _, _) =>
         e.kind == Station && e.hull == ship && e.faction == faction && e.system == system
       case JumpholeRecord(_, _, out, x, y) =>
         e.kind == Jumphole(out) && e.x == x && e.y == y && e.system == system
  }

  /** `run` holds the members built from the records `m`, one each, in order, with handles from `id` on. */
  predicate Builds(run: seq<Entity>, m: seq<Record>, system: string, id: nat)
    decreases |m|
  {
    |run| == |m| && (m != [] ==> Built(run[0], m[0], system, id) && Builds(run[1..], m[1..], system, id + 1))
  }

  /** Read back one member of a run. */
  lemma {:induction false} BuildsAt(run: seq<Entity>, m: seq<Record>, system: string, id: nat, i: nat)
    requires Builds(run, m, system, id)
    requires i < |m|
    ensures Built(run[i], m[i], system, id + i)
    decreases i
  {
    if i > 0 {
      BuildsAt(run[1..], m[1..], system, id + 1, i - 1);
    }
  }

  lemma MakeBuilt(anchors: seq<Entity>, rec: Record, roll: Roll, id: nat, system: string)
    ensures Built(Make(anchors, rec, roll, id, system), rec, system, id)
  {
  }

  /**
    A generation loop keeps what was there and appends `added`: exactly one member per
    record of this system, in record order, with consecutive handles; records of other
    systems add nothing.
   */
  lemma {:induction false} AddMembersShape(acc: seq<Entity>, recs: seq<Record>, rolls: seq<Roll>, system: string, firstId: nat)
      returns (added: seq<Entity>)
    requires |rolls| == |recs|
    ensures AddMembers(acc, recs, rolls, system, firstId) == acc + added
    ensures Builds(added, Matching(recs, system), system, firstId + |acc|)
    decreases |recs|
  {
    if recs == [] {
      added := [];
      assert acc + added == acc;
    } else {
      var m' := Matching(recs[1..], system);
      if recs[0].system == system {
        var e := Make(acc, recs[0], rolls[0], firstId + |acc|, system);
        var rest := AddMembersShape(acc + [e], recs[1..], rolls[1..], system, firstId);
        added := [e] + rest;
        assert acc + added == acc + [e] + rest;
        assert Matching(recs, system) == [recs[0]] + m';
        MakeBuilt(acc, recs[0], rolls[0], firstId + |acc|, system);
        BuildsCons(e, rest, recs[0], m', system, firstId + |acc|);
      } else {
        added := AddMembersShape(acc, recs[1..], rolls[1..], system, firstId);
        assert Matching(recs, system) == m';
      }
    }
  }

  lemma BuildsCons(e: Entity, rest: seq<Entity>, rec: Record, m: seq<Record>, system: string, id: nat)
    requires Built(e, rec, system, id) && Builds(rest, m, system, id + 1)
    ensures Builds([e] + rest, [rec] + m, system, id)
  {
    assert ([e] + rest)[1..] == rest && ([rec] + m)[1..] == m;
  }

  /** Two runs side by side make one run over both record lists. */
  lemma {:induction false} BuildsAppend(a: seq<Entity>, b: seq<Entity>, m: seq<Record>, n: seq<Record>, system: string, id: nat)
    requires Builds(a, m, system, id) && Builds(b, n, system, id + |a|)
    ensures Builds(a + b, m + n, system, id)
    decreases |m|
  {
    if m == [] {
      assert a + b == b && m + n == n;
    } else {
      BuildsAppend(a[1..], b, m[1..], n, system, id + 1);
      assert (a + b)[1..] == a[1..] + b && (m + n)[1..] == m[1..] + n;
    }
  }

  /** generateSystem split at its four loops: the list after each loop, and what each loop appended. */
  lemma Stages(system: string, planets: seq<Record>, ships: seq<Record>, stations: seq<Record>,
               jumpholes: seq<Record>, shipRolls: seq<Roll>, stationRolls: seq<Roll>, firstId: nat)
      returns (g1: seq<Entity>, g2: seq<Entity>, g3: seq<Entity>, x2: seq<Entity>, x3: seq<Entity>, x4: seq<Entity>)
    requires |shipRolls| == |ships| && |stationRolls| == |stations|
    ensures Generated(system, planets, ships, stations, jumpholes, shipRolls, stationRolls, firstId) == g3 + x4
    ensures g2 == g1 + x2 && g3 == g2 + x3
    ensures Builds(g1, Matching(planets, system), system, firstId)
    ensures Builds(x2, Matching(ships, system), system, firstId + |g1|)
    ensures Builds(x3, Matching(stations, system), system, firstId + |g2|)
    ensures Builds(x4, Matching(jumpholes, system), system, firstId + |g3|)
  {
    g1 := AddMembers([], planets, NoRolls(|planets|), system, firstId);
    g2 := AddMembers(g1, ships, shipRolls, system, firstId);
    g3 := AddMembers(g2, stations, stationRolls, system, firstId);
    var x1 := AddMembersShape([], planets, NoRolls(|planets|), system, firstId);
    x2 := AddMembersShape(g1, ships, shipRolls, system, firstId);
    x3 := AddMembersShape(g2, stations, stationRolls, system, firstId);
    x4 := AddMembersShape(g3, jumpholes, NoRolls(|jumpholes|), system, firstId);
    assert g1 == x1 by { assert [] + x1 == x1; }
  }

  /**
    generateSystem appends one member per record whose system is this one, all planets
    first, then the ships, then the stations, then the jumpholes, each group in record order,
    with consecutive handles from `firstId` on.
   */
  lemma GeneratedOrder(system: string, planets: seq<Record>, ships: seq<Record>, stations: seq<Record>,
                       jumpholes: seq<Record>, shipRolls: seq<Roll>, stationRolls: seq<Roll>, firstId: nat)
    requires |shipRolls| == |ships| && |stationRolls| == |stations|
    ensures Builds(Generated(system, planets, ships, stations, jumpholes, shipRolls, stationRolls, firstId),
                   Matching(planets, system) + Matching(ships, system) + Matching(stations, system) + Matching(jumpholes, system),
                   system, firstId)
  {
    var p, s, t, j := Matching(planets, system), Matching(ships, system), Matching(stations, system), Matching(jumpholes, system);
    var g1, g2, g3, x2, x3, x4 := Stages(system, planets, ships, stations, jumpholes, shipRolls, stationRolls, firstId);
    BuildsAppend(g1, x2, p, s, system, firstId);
    BuildsAppend(g2, x3, p + s, t, system, firstId);
    BuildsAppend(g3, x4, p + s + t, j, system, firstId);
  }
}
