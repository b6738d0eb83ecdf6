/**
  The rules the patrol controller follows, as functions over a snapshot of the systems:
  how ships are counted per faction and loadout, what the per-loadout totals are, where
  a replacement patrol is spawned, what ship a loadout produces, and what one sweep over
  a faction's patrol list spawns.
 */
module PatrolRules {
  import opened Wrappers
  import opened Seqs
  import opened Entities

  /** One entry of a faction's patrol list: a loadout name and how many of it the faction wants. */
  datatype Patrol = Patrol(loadout: string, density: real)

  datatype Faction = Faction(name: string, patrols: seq<Patrol>)

  /** One loadout record: the hull, equipment and cargo a named loadout gives a ship. */
  datatype Loadout = Loadout(name: string, ship: string, install: string, cargo: string)

  /** What the controller sees of one system: its name, the faction owning it, and its members. */
  datatype Zone = Zone(name: string, owner: string, members: seq<Entity>)

  /** The raw draws one spawn consumes: the system, the host celestial, the two offsets. */
  datatype SpawnRoll = SpawnRoll(system: nat, host: nat, dx: nat, dy: nat)

  /** Where a spawn goes: a zone index and a position. */
  datatype Spot = Spot(zone: nat, x: int, y: int)

  /** The hull a ship gets when no loadout applies. */
  const DefaultHull: string := "Mass Testing Brick"

  /** The offset range around the host celestial: [-SpawnJitter, SpawnJitter). */
  const SpawnJitter: int := 4000

  /** What a ship count matches on besides the faction: the loadout it was built from, or its behaviour. */
  datatype ShipMatch = ByLoadout(loadout: string) | ByRole(behavior: Behavior)

  /** A ship of the ship list that the count includes. */
  predicate Matches(faction: string, m: ShipMatch, ship: Entity) {
    ship.faction == faction
    && match m
       case ByLoadout(l) => ship.template == Some(l)
       case ByRole(b) => ship.behavior == b
  }

  /** A member that countShipsByLoadout includes: a ship of `faction` built from `loadout`. */
  predicate IsLoadoutShip(faction: string, loadout: string, e: Entity) {
    e.kind.Ship? && Matches(faction, ByLoadout(loadout), e)
  }

  /**
    The loop of the two counting tools: the ships of `ships` that match,
    counted front to back. It peels the LAST ship rather than the first (as
    `Seqs.Count` does) so that the loop's invariant over the prefix
    `ships[..a]` grows by one unfolding per iteration (`CountMatchingSnoc`),
    and it takes the match as data rather than as a predicate value.
   */
  function CountMatching(ships: seq<Entity>, faction: string, m: ShipMatch): (n: nat)
    ensures n <= |ships|
    decreases |ships|
  {
    if ships == [] then 0
    else CountMatching(ships[..|ships| - 1], faction, m) + (if Matches(faction, m, ships[|ships| - 1]) then 1 else 0)
  }

  /** Counting one more ship of the list adds one exactly when that ship matches. */
  lemma CountMatchingSnoc(ships: seq<Entity>, a: nat, faction: string, m: ShipMatch)
    requires a < |ships|
    ensures CountMatching(ships[..a + 1], faction, m) == CountMatching(ships[..a], faction, m) + (if Matches(faction, m, ships[a]) then 1 else 0)
  {
    assert ships[..a + 1][..a] == ships[..a];
  }

  lemma {:induction false} CountMatchingAppend(a: seq<Entity>, b: seq<Entity>, faction: string, m: ShipMatch)
    ensures CountMatching(a + b, faction, m) == CountMatching(a, faction, m) + CountMatching(b, faction, m)
    decreases |b|
  {
    if b != [] {
      var n := |b| - 1;
      assert (a + b)[..|a + b| - 1] == a + b[..n];
      CountMatchingAppend(a, b[..n], faction, m);
    } else {
      assert a + b == a;
    }
  }

  /** countShipsByLoadout: the ships of the system's ship list that fly for `faction` and were built from `loadout`. */
  function CountShipsByLoadout(faction: string, members: seq<Entity>, loadout: string): (n: nat)
    ensures n <= |ShipList(members)|
  {
    CountMatching(ShipList(members), faction, ByLoadout(loadout))
  }

  /** countShipsByRole: the same count, matching on the ship's behaviour instead of its loadout. */
  function CountShipsByRole(faction: string, members: seq<Entity>, behavior: Behavior): (n: nat)
    ensures n <= |ShipList(members)|
  {
    CountMatching(ShipList(members), faction, ByRole(behavior))
  }

  /** A system with more members counts the ships of both parts. */
  lemma CountShipsAppend(faction: string, a: seq<Entity>, b: seq<Entity>, m: ShipMatch)
    ensures CountMatching(ShipList(a + b), faction, m)
         == CountMatching(ShipList(a), faction, m) + CountMatching(ShipList(b), faction, m)
  {
    FilterAppend(a, b, (e: Entity) => e.kind.Ship?);
    CountMatchingAppend(ShipList(a), ShipList(b), faction, m);
  }

  /** One member counts once exactly when it is a matching ship. */
  lemma CountShipsOne(faction: string, e: Entity, m: ShipMatch)
    ensures CountMatching(ShipList([e]), faction, m) == if e.kind.Ship? && Matches(faction, m, e) then 1 else 0
  {
    assert [e][1..] == [];
    if e.kind.Ship? {
      assert ShipList([e]) == [e];
      assert [e][..0] == [];
    } else {
      assert ShipList([e]) == [];
    }
  }

  /**
    The first phase of doPatrols for one loadout: the ships of that loadout summed over
    the systems `faction` owns; the systems it does not own contribute nothing.
   */
  function Total(zones: seq<Zone>, faction: string, loadout: string): nat
    decreases |zones|
  {
    if zones == [] then 0
    else
      var last := zones[|zones| - 1];
      Total(zones[..|zones| - 1], faction, loadout)
        + (if last.owner == faction then CountShipsByLoadout(faction, last.members, loadout) else 0)
  }

  /** The members of the systems `faction` owns, system after system. */
  function OwnedMembers(zones: seq<Zone>, faction: string): seq<Entity>
    decreases |zones|
  {
    if zones == [] then []
    else
      var last := zones[|zones| - 1];
      OwnedMembers(zones[..|zones| - 1], faction) + (if last.owner == faction then last.members else [])
  }

  /** A loadout's total is the number of its ships across all of the faction's space. */
  lemma {:induction false} TotalCountsOwnedSpace(zones: seq<Zone>, faction: string, loadout: string)
    ensures Total(zones, faction, loadout) == CountShipsByLoadout(faction, OwnedMembers(zones, faction), loadout)
    decreases |zones|
  {
    if zones != [] {
      var last := zones[|zones| - 1];
      TotalCountsOwnedSpace(zones[..|zones| - 1], faction, loadout);
      CountShipsAppend(faction, OwnedMembers(zones[..|zones| - 1], faction),
                       if last.owner == faction then last.members else [], ByLoadout(loadout));
    }
  }

  /** count[] after the counting phase: one total per patrol entry. */
  function Totals(zones: seq<Zone>, faction: Faction): (t: seq<nat>)
    ensures |t| == |faction.patrols|
  {
    seq(|faction.patrols|, v requires 0 <= v < |faction.patrols| => Total(zones, faction.name, faction.patrols[v].loadout))
  }

  /** The indices of the systems `faction` owns (its sovereignty), in order. */
  function SovIndices(zones: seq<Zone>, faction: string): (r: seq<nat>)
    ensures forall k :: 0 <= k < |r| ==> r[k] < |zones| && zones[r[k]].owner == faction
    ensures forall i :: 0 <= i < |zones| && zones[i].owner == faction ==> i in r
    decreases |zones|
  {
    if zones == [] then []
    else
      var n := |zones| - 1;
      var r := SovIndices(zones[..n], faction) + (if zones[n].owner == faction then [n] else []);
      assert forall i :: 0 <= i < n ==> zones[..n][i] == zones[i];
      r
  }

  /**
    Where doPatrols puts a replacement: a system drawn from the faction's sovereignty, a
    celestial drawn from that system, and an offset in [-4000, 4000) on each axis. None is
    the case in which the source's draw throws: no owned system, or no celestial in the
    drawn one.
   */
  function Request(zones: seq<Zone>, faction: string, roll: SpawnRoll): (r: Option<Spot>)
    ensures r.Some? ==> r.value.zone < |zones| && zones[r.value.zone].owner == faction
    ensures r.Some? ==>
      var cel := CelestialList(zones[r.value.zone].members);
      exists k :: 0 <= k < |cel| && -SpawnJitter <= r.value.x - cel[k].x < SpawnJitter
                                  && -SpawnJitter <= r.value.y - cel[k].y < SpawnJitter
    ensures (forall i :: 0 <= i < |zones| ==> zones[i].owner != faction) ==> r.None?
    ensures (exists i :: 0 <= i < |zones| && zones[i].owner == faction)
         && (forall i :: 0 <= i < |zones| && zones[i].owner == faction ==> CelestialList(zones[i].members) != [])
         ==> r.Some?
  {
    var sov := SovIndices(zones, faction);
    if |sov| == 0 then None
    else
      var z := sov[NextInt(|sov|, roll.system)];
      var cel := CelestialList(zones[z].members);
      if |cel| == 0 then None
      else
        var k := NextInt(|cel|, roll.host);
        Some(Spot(z, cel[k].x + NextInt(8000, roll.dx) - SpawnJitter, cel[k].y + NextInt(8000, roll.dy) - SpawnJitter))
  }

  /** The outfit makeShip reads from the first loadout record named `template`. */
  datatype Outfit = Outfit(ship: string, install: string, cargo: string)

  function OutfitOf(loadouts: seq<Loadout>, template: Option<string>): (o: Outfit)
    ensures template.Some? && (exists k :: 0 <= k < |loadouts| && loadouts[k].name == template.value) ==>
      exists k :: 0 <= k < |loadouts| && loadouts[k].name == template.value
        && (forall j :: 0 <= j < k ==> loadouts[j].name != template.value)
        && o == Outfit(loadouts[k].ship, loadouts[k].install, loadouts[k].cargo)
    ensures template.None? || (forall k :: 0 <= k < |loadouts| ==> loadouts[k].name != template.value) ==>
      o == Outfit(DefaultHull, "", "")
  {
    if template.None? then Outfit(DefaultHull, "", "")
    else match FirstIndex(loadouts, (l: Loadout) => l.name == template.value)
      case None => Outfit(DefaultHull, "", "")
      case Some(k) => Outfit(loadouts[k].ship, loadouts[k].install, loadouts[k].cargo)
  }

  /** The ship makeShip returns, before spawnShip places it. */
  function Fitted(loadouts: seq<Loadout>, template: Option<string>, name: string, faction: string, id: nat): Entity {
    var o := OutfitOf(loadouts, template);
    Blank(id, Ship, name, o.ship).(template := template, install := o.install, faction := faction, cargo := o.cargo)
  }

  /** What spawnShip appends: a ship of `patrol`'s loadout at `spot` with `behavior`, in the system named `system`. */
  function Spawned(loadouts: seq<Loadout>, faction: string, patrol: Patrol, spot: Spot, id: nat, system: string, behavior: Behavior): (e: Entity)
    ensures e.kind.Ship? && e.id == id && e.state == Alive
    ensures e.name == patrol.loadout && e.template == Some(patrol.loadout) && e.faction == faction
    ensures e.behavior == behavior && e.system == system && e.x == spot.x && e.y == spot.y
    ensures var o := OutfitOf(loadouts, Some(patrol.loadout)); e.hull == o.ship && e.install == o.install && e.cargo == o.cargo
  {
    Fitted(loadouts, Some(patrol.loadout), patrol.loadout, faction, id).(x := spot.x, y := spot.y, behavior := behavior, system := system)
  }

  /** The zones after appending `e` to zone `z`. */
  function Put(zones: seq<Zone>, z: nat, e: Entity): (r: seq<Zone>)
    requires z < |zones|
    ensures |r| == |zones|
  {
    zones[z := zones[z].(members := zones[z].members + [e])]
  }

  /** The state of the spawning phase: the zones, the patrol indices spawned so far, and whether a draw threw. */
  datatype Sweep = Sweep(zones: seq<Zone>, spawned: seq<nat>, threw: bool)

  predicate WellRolled(faction: Faction, totals: seq<nat>, rolls: seq<SpawnRoll>) {
    |totals| == |faction.patrols| && |rolls| == |faction.patrols|
  }

  /** Patrol entry `a` is short of its density. */
  predicate Short(faction: Faction, totals: seq<nat>, a: nat)
    requires a < |totals| == |faction.patrols|
  {
    (totals[a] as real) < faction.patrols[a].density
  }

  /** The faction owns at least one system, and every system it owns has a celestial to spawn near. */
  predicate Spawnable(zones: seq<Zone>, faction: string) {
    (exists i :: 0 <= i < |zones| && zones[i].owner == faction)
    && forall i :: 0 <= i < |zones| && zones[i].owner == faction ==> CelestialList(zones[i].members) != []
  }

  /**
    Where the draws of `roll` put a new patrol ship of `patrol` numbered `id`: the systems
    with the ship appended to the drawn one, or None where a draw is from an empty list.
   */
  function Placed(zones: seq<Zone>, faction: string, loadouts: seq<Loadout>, patrol: Patrol, roll: SpawnRoll, id: nat): Option<seq<Zone>>
  {
    match Request(zones, faction, roll)
    case None => None
    case Some(spot) => Some(Put(zones, spot.zone, Spawned(loadouts, faction, patrol, spot, id, zones[spot.zone].name, Patrolling)))
  }

  /**
    Patrol entry a of the spawning phase: an entry short of its density spawns one ship
    unless an earlier draw threw; a draw that throws ends the phase.
   */
  function SweepStep(s: Sweep, faction: Faction, loadouts: seq<Loadout>, totals: seq<nat>,
                     rolls: seq<SpawnRoll>, firstId: nat, a: nat): Sweep
    requires WellRolled(faction, totals, rolls) && a < |totals|
  {
    if s.threw || !Short(faction, totals, a) then s
    else match Placed(s.zones, faction.name, loadouts, faction.patrols[a], rolls[a], firstId + |s.spawned|)
      case None => s.(threw := true)
      case Some(after) => Sweep(after, s.spawned + [a], false)
  }

  /**
    What one step promises: it keeps the systems' shape, raises the total of the spawned
    entry's loadout by one and no other, cannot throw in spawnable space, and records the
    entry it spawned for.
   */
  ghost predicate StepKeeps(s: Sweep, r: Sweep, faction: Faction, totals: seq<nat>, a: nat)
    requires a < |totals| == |faction.patrols|
  {
    && KeepsSystems(s.zones, r.zones, faction.name)
    && (forall l :: Total(r.zones, faction.name, l) + SpawnedOf(faction, s.spawned, l)
                 == Total(s.zones, faction.name, l) + SpawnedOf(faction, r.spawned, l))
    && (Spawnable(s.zones, faction.name) && !s.threw ==> !r.threw)
    && (r.threw ==> r.spawned == s.spawned)
    && (!r.threw ==> !s.threw && r.spawned == s.spawned + (if Short(faction, totals, a) then [a] else []))
  }

  lemma SweepStepFacts(s: Sweep, r: Sweep, faction: Faction, loadouts: seq<Loadout>, totals: seq<nat>,
                       rolls: seq<SpawnRoll>, firstId: nat, a: nat)
    requires WellRolled(faction, totals, rolls) && a < |totals|
    requires r == SweepStep(s, faction, loadouts, totals, rolls, firstId, a)
    ensures StepKeeps(s, r, faction, totals, a)
  {
    if s.threw || !Short(faction, totals, a) {
      assert r == s;
      KeepsSystemsRefl(s.zones, faction.name);
    } else {
      match Request(s.zones, faction.name, rolls[a]) {
        case None =>
          assert r == s.(threw := true);
          KeepsSystemsRefl(s.zones, faction.name);
        case Some(spot) =>
          var e := Spawned(loadouts, faction.name, faction.patrols[a], spot, firstId + |s.spawned|, s.zones[spot.zone].name, Patrolling);
          assert r == Sweep(Put(s.zones, spot.zone, e), s.spawned + [a], false);
          SpawnKeeps(s, r, faction, totals, a, spot.zone, e);
      }
    }
  }

  /** The step that spawns: ship e of entry a put into system z, which the faction owns. */
  lemma SpawnKeeps(s: Sweep, r: Sweep, faction: Faction, totals: seq<nat>, a: nat, z: nat, e: Entity)
    requires a < |totals| == |faction.patrols| && Short(faction, totals, a) && !s.threw
    requires z < |s.zones| && s.zones[z].owner == faction.name
    requires e.kind.Ship? && e.faction == faction.name && e.template == Some(faction.patrols[a].loadout)
    requires r == Sweep(Put(s.zones, z, e), s.spawned + [a], false)
    ensures StepKeeps(s, r, faction, totals, a)
  {
    PutKeepsSystems(s.zones, z, e, faction.name);
    PutRaisesTotals(s.zones, z, e, faction, s.spawned, a);
  }

  /** The spawning phase of doPatrols after patrol entries 0 .. a - 1, against the totals counted before it. */
  function SweepUpTo(zones: seq<Zone>, faction: Faction, loadouts: seq<Loadout>, totals: seq<nat>,
                     rolls: seq<SpawnRoll>, firstId: nat, a: nat): Sweep
    requires WellRolled(faction, totals, rolls) && a <= |totals|
    decreases a
  {
    if a == 0 then Sweep(zones, [], false)
    else SweepStep(SweepUpTo(zones, faction, loadouts, totals, rolls, firstId, a - 1), faction, loadouts, totals, rolls, firstId, a - 1)
  }

  /**
    What the spawning phase promises after entries 0 .. a - 1: the systems keep their
    shape, each loadout's total has risen by the number of its entries spawned for,
    nothing has thrown in spawnable space, and the entries spawned for are the short ones
    in order (all of them unless a draw threw).
   */
  ghost predicate SweepKeeps(zones: seq<Zone>, s: Sweep, faction: Faction, totals: seq<nat>, a: nat)
    requires a <= |totals| == |faction.patrols|
  {
    && KeepsSystems(zones, s.zones, faction.name)
    && (forall l :: Total(s.zones, faction.name, l) == Total(zones, faction.name, l) + SpawnedOf(faction, s.spawned, l))
    && (Spawnable(zones, faction.name) ==> !s.threw)
    && s.spawned <= Deficits(faction, totals, a)
    && (!s.threw ==> s.spawned == Deficits(faction, totals, a))
  }

  lemma SweepUpToFacts(zones: seq<Zone>, faction: Faction, loadouts: seq<Loadout>, totals: seq<nat>,
                       rolls: seq<SpawnRoll>, firstId: nat, a: nat)
    requires WellRolled(faction, totals, rolls) && a <= |totals|
    ensures SweepKeeps(zones, SweepUpTo(zones, faction, loadouts, totals, rolls, firstId, a), faction, totals, a)
  {
    var ss := seq(a + 1, k requires 0 <= k <= a => SweepUpTo(zones, faction, loadouts, totals, rolls, firstId, k));
    forall k | 0 <= k < a
      ensures StepKeeps(ss[k], ss[k + 1], faction, totals, k)
    {
      SweepStepFacts(ss[k], ss[k + 1], faction, loadouts, totals, rolls, firstId, k);
    }
    ChainKeeps(zones, ss, faction, totals, a);
  }

  /** Any run of steps that each keep their promise, from the untouched systems, keeps the phase's promise. */
  lemma {:induction false} ChainKeeps(zones: seq<Zone>, ss: seq<Sweep>, faction: Faction, totals: seq<nat>, a: nat)
    requires a < |ss| && a <= |totals| == |faction.patrols|
    requires ss[0] == Sweep(zones, [], false)
    requires forall k :: 0 <= k < a ==> StepKeeps(ss[k], ss[k + 1], faction, totals, k)
    ensures SweepKeeps(zones, ss[a], faction, totals, a)
    decreases a
  {
    if a == 0 {
      KeepsSystemsRefl(zones, faction.name);
      assert forall l :: SpawnedOf(faction, [], l) == 0;
    } else {
      ChainKeeps(zones, ss, faction, totals, a - 1);
      SweepKeepsStep(zones, ss[a - 1], ss[a], faction, totals, a - 1);
    }
  }

  /** Entry a's step extends what the phase promises from entries 0 .. a - 1 to 0 .. a. */
  lemma SweepKeepsStep(zones: seq<Zone>, s: Sweep, r: Sweep, faction: Faction, totals: seq<nat>, a: nat)
    requires a < |totals| == |faction.patrols|
    requires SweepKeeps(zones, s, faction, totals, a) && StepKeeps(s, r, faction, totals, a)
    ensures SweepKeeps(zones, r, faction, totals, a + 1)
  {
    KeepsSystemsChain(zones, s.zones, r.zones, faction.name);
    TalliesChain(zones, s, r, faction);
    if Spawnable(zones, faction.name) {
      SpawnableKept(zones, s.zones, faction.name, faction.name);
    }
    DeficitsChain(s, r, faction, totals, a);
  }

  lemma TalliesChain(zones: seq<Zone>, s: Sweep, r: Sweep, faction: Faction)
    requires forall l :: Total(s.zones, faction.name, l) == Total(zones, faction.name, l) + SpawnedOf(faction, s.spawned, l)
    requires forall l :: Total(r.zones, faction.name, l) + SpawnedOf(faction, s.spawned, l)
                      == Total(s.zones, faction.name, l) + SpawnedOf(faction, r.spawned, l)
    ensures forall l :: Total(r.zones, faction.name, l) == Total(zones, faction.name, l) + SpawnedOf(faction, r.spawned, l)
  {
    forall l ensures Total(r.zones, faction.name, l) == Total(zones, faction.name, l) + SpawnedOf(faction, r.spawned, l) {
      assert Total(s.zones, faction.name, l) == Total(zones, faction.name, l) + SpawnedOf(faction, s.spawned, l);
    }
  }

  lemma DeficitsChain(s: Sweep, r: Sweep, faction: Faction, totals: seq<nat>, a: nat)
    requires a < |totals| == |faction.patrols|
    requires s.spawned <= Deficits(faction, totals, a) && (!s.threw ==> s.spawned == Deficits(faction, totals, a))
    requires r.threw ==> r.spawned == s.spawned
    requires !r.threw ==> !s.threw && r.spawned == s.spawned + (if Short(faction, totals, a) then [a] else [])
    ensures r.spawned <= Deficits(faction, totals, a + 1) && (!r.threw ==> r.spawned == Deficits(faction, totals, a + 1))
  {
    var d := Deficits(faction, totals, a);
    assert Deficits(faction, totals, a + 1) == d + (if Short(faction, totals, a) then [a] else []);
    if r.threw {
      assert r.spawned == s.spawned;
      assert d <= Deficits(faction, totals, a + 1);
    }
  }

  /** The patrol entries 0 .. a - 1 that are short of their density, in order. */
  function Deficits(faction: Faction, totals: seq<nat>, a: nat): seq<nat>
    requires a <= |totals| == |faction.patrols|
  {
    if a == 0 then [] else Deficits(faction, totals, a - 1) + (if Short(faction, totals, a - 1) then [a - 1] else [])
  }

  /** doPatrols as a whole: count first, then sweep; nothing at all for a faction without patrols. */
  function PatrolsOf(zones: seq<Zone>, faction: Faction, loadouts: seq<Loadout>, rolls: seq<SpawnRoll>, firstId: nat): Sweep
    requires |rolls| == |faction.patrols|
  {
    if |faction.patrols| == 0 then Sweep(zones, [], false)
    else SweepUpTo(zones, faction, loadouts, Totals(zones, faction), rolls, firstId, |faction.patrols|)
  }

  /**
    doPatrols keeps the systems' shape and touches only the faction's own systems; each
    loadout's total rises by the number of entries spawned for it; nothing throws in
    spawnable space; and the entries spawned for are, in order, those whose total counted
    before any spawn was below their density (a prefix of them when a draw threw).
   */
  lemma PatrolsOfFacts(zones: seq<Zone>, faction: Faction, loadouts: seq<Loadout>, rolls: seq<SpawnRoll>, firstId: nat)
    requires |rolls| == |faction.patrols|
    ensures var s := PatrolsOf(zones, faction, loadouts, rolls, firstId);
      && KeepsSystems(zones, s.zones, faction.name)
      && (forall l :: Total(s.zones, faction.name, l) == Total(zones, faction.name, l) + SpawnedOf(faction, s.spawned, l))
      && (Spawnable(zones, faction.name) ==> !s.threw)
      && s.spawned <= Deficits(faction, Totals(zones, faction), |faction.patrols|)
      && (!s.threw ==> s.spawned == Deficits(faction, Totals(zones, faction), |faction.patrols|))
  {
    if |faction.patrols| == 0 {
      KeepsSystemsRefl(zones, faction.name);
    } else {
      SweepUpToFacts(zones, faction, loadouts, Totals(zones, faction), rolls, firstId, |faction.patrols|);
    }
  }

  /** How many of the spawned patrol entries use `loadout`. */
  function SpawnedOf(faction: Faction, spawned: seq<nat>, loadout: string): (n: nat)
    ensures n <= |spawned|
    decreases |spawned|
  {
    if spawned == [] then 0
    else
      var k := spawned[|spawned| - 1];
      SpawnedOf(faction, spawned[..|spawned| - 1], loadout)
        + (if k < |faction.patrols| && faction.patrols[k].loadout == loadout then 1 else 0)
  }

  /** Spawning for one more entry counts once toward that entry's loadout and nowhere else. */
  lemma SpawnedOfSnoc(faction: Faction, x: seq<nat>, k: nat, loadout: string)
    requires k < |faction.patrols|
    ensures SpawnedOf(faction, x + [k], loadout)
         == SpawnedOf(faction, x, loadout) + (if faction.patrols[k].loadout == loadout then 1 else 0)
  {
    assert (x + [k])[..|x|] == x;
  }

  /** One ship put into system z adds one to a total exactly when z is owned and the ship matches. */
  lemma {:induction false} TotalPut(zones: seq<Zone>, z: nat, e: Entity, faction: string, loadout: string)
    requires z < |zones|
    ensures Total(Put(zones, z, e), faction, loadout)
         == Total(zones, faction, loadout) + (if zones[z].owner == faction && IsLoadoutShip(faction, loadout, e) then 1 else 0)
    decreases |zones|
  {
    var n := |zones|;
    var p := Put(zones, z, e);
    var owned := (zones[n - 1].owner == faction);
    if z == n - 1 {
      assert p[..n - 1] == zones[..n - 1];
      assert p[n - 1].members == zones[n - 1].members + [e];
      CountShipsAppend(faction, zones[z].members, [e], ByLoadout(loadout));
      CountShipsOne(faction, e, ByLoadout(loadout));
      assert Total(p, faction, loadout) == Total(zones[..n - 1], faction, loadout)
        + (if owned then CountShipsByLoadout(faction, zones[n - 1].members + [e], loadout) else 0);
    } else {
      assert p[..n - 1] == Put(zones[..n - 1], z, e);
      assert p[n - 1] == zones[n - 1];
      TotalPut(zones[..n - 1], z, e, faction, loadout);
      assert Total(p, faction, loadout) == Total(Put(zones[..n - 1], z, e), faction, loadout)
        + (if owned then CountShipsByLoadout(faction, zones[n - 1].members, loadout) else 0);
    }
  }

  /** What a spawned patrol counts toward: exactly the totals of its own loadout. */
  lemma SpawnedCounts(loadouts: seq<Loadout>, faction: string, patrol: Patrol, spot: Spot, id: nat, system: string,
                      behavior: Behavior, loadout: string)
    ensures IsLoadoutShip(faction, loadout, Spawned(loadouts, faction, patrol, spot, id, system, behavior)) <==> loadout == patrol.loadout
    ensures !IsCelestial(Spawned(loadouts, faction, patrol, spot, id, system, behavior))
  {
  }

  /** The shape a step keeps: same systems, celestials and owners, members only appended, unowned systems untouched. */
  predicate KeepsSystems(zones: seq<Zone>, after: seq<Zone>, faction: string) {
    |after| == |zones| &&
    forall i :: 0 <= i < |zones| ==>
      after[i].name == zones[i].name && after[i].owner == zones[i].owner
      && zones[i].members <= after[i].members
      && CelestialList(after[i].members) == CelestialList(zones[i].members)
      && (zones[i].owner != faction ==> after[i] == zones[i])
  }

  /** Putting a non-celestial into a system the faction owns keeps the shape. */
  lemma PutKeepsSystems(zones: seq<Zone>, z: nat, e: Entity, faction: string)
    requires z < |zones| && zones[z].owner == faction && !IsCelestial(e)
    ensures KeepsSystems(zones, Put(zones, z, e), faction)
  {
    var after := Put(zones, z, e);
    FilterAppend(zones[z].members, [e], IsCelestial);
    assert Filter([e], IsCelestial) == [];
    assert zones[z].members <= after[z].members;
    forall i | 0 <= i < |zones| && i != z ensures after[i] == zones[i] {
    }
  }

  lemma KeepsSystemsRefl(zones: seq<Zone>, faction: string)
    ensures KeepsSystems(zones, zones, faction)
  {
    forall i | 0 <= i < |zones| ensures zones[i].members <= zones[i].members {
      assert zones[i].members[..|zones[i].members|] == zones[i].members;
    }
  }

  lemma KeepsSystemsChain(zones: seq<Zone>, mid: seq<Zone>, after: seq<Zone>, faction: string)
    requires KeepsSystems(zones, mid, faction) && KeepsSystems(mid, after, faction)
    ensures KeepsSystems(zones, after, faction)
  {
  }

  /** Spawning for one faction leaves every faction's space as spawnable as it was. */
  lemma SpawnableKept(zones: seq<Zone>, after: seq<Zone>, faction: string, other: string)
    requires KeepsSystems(zones, after, faction) && Spawnable(zones, other)
    ensures Spawnable(after, other)
  {
    var i :| 0 <= i < |zones| && zones[i].owner == other;
    assert after[i].owner == other;
  }

  /** A patrol of entry a put into an owned system: one more of that loadout, and one more entry spawned for. */
  lemma PutRaisesTotals(zones: seq<Zone>, z: nat, e: Entity, faction: Faction, spawned: seq<nat>, a: nat)
    requires z < |zones| && zones[z].owner == faction.name && a < |faction.patrols|
    requires e.kind.Ship? && e.faction == faction.name && e.template == Some(faction.patrols[a].loadout)
    ensures forall l :: Total(Put(zones, z, e), faction.name, l) + SpawnedOf(faction, spawned, l)
                     == Total(zones, faction.name, l) + SpawnedOf(faction, spawned + [a], l)
  {
    forall l
      ensures Total(Put(zones, z, e), faction.name, l) + SpawnedOf(faction, spawned, l)
           == Total(zones, faction.name, l) + SpawnedOf(faction, spawned + [a], l)
    {
      TotalPut(zones, z, e, faction.name, l);
      SpawnedOfSnoc(faction, spawned, a, l);
    }
  }

  /** With pairwise different loadout names, entry v is among the deficits of 0 .. a - 1 exactly when it is short. */
  lemma {:induction false} DeficitsOfLoadout(faction: Faction, totals: seq<nat>, a: nat, v: nat)
    requires a <= |totals| == |faction.patrols| && v < |totals|
    requires forall i, j :: 0 <= i < j < |faction.patrols| ==> faction.patrols[i].loadout != faction.patrols[j].loadout
    ensures SpawnedOf(faction, Deficits(faction, totals, a), faction.patrols[v].loadout)
         == if v < a && Short(faction, totals, v) then 1 else 0
    decreases a
  {
    if a > 0 {
      var l := faction.patrols[v].loadout;
      DeficitsOfLoadout(faction, totals, a - 1, v);
      if Short(faction, totals, a - 1) {
        SpawnedOfSnoc(faction, Deficits(faction, totals, a - 1), a - 1, l);
        if v < a - 1 {
          assert faction.patrols[v].loadout != faction.patrols[a - 1].loadout;
        } else if v > a - 1 {
          assert faction.patrols[a - 1].loadout != faction.patrols[v].loadout;
        }
      } else {
        assert Deficits(faction, totals, a) == Deficits(faction, totals, a - 1);
      }
    }
  }

  /**
    doPatrols as a whole, on a faction whose space is spawnable and whose loadout names
    differ: nothing throws, every entry below its density gains exactly one ship of its
    loadout, and every other entry's total is unchanged.
   */
  lemma PatrolsTopUp(zones: seq<Zone>, faction: Faction, loadouts: seq<Loadout>, rolls: seq<SpawnRoll>, firstId: nat, v: nat)
    requires |rolls| == |faction.patrols| && v < |faction.patrols|
    requires Spawnable(zones, faction.name)
    requires forall i, j :: 0 <= i < j < |faction.patrols| ==> faction.patrols[i].loadout != faction.patrols[j].loadout
    ensures var s := PatrolsOf(zones, faction, loadouts, rolls, firstId);
      var before := Total(zones, faction.name, faction.patrols[v].loadout);
      !s.threw
      && Total(s.zones, faction.name, faction.patrols[v].loadout)
         == before + (if (before as real) < faction.patrols[v].density then 1 else 0)
  {
    PatrolsOfFacts(zones, faction, loadouts, rolls, firstId);
    DeficitsOfLoadout(faction, Totals(zones, faction), |faction.patrols|, v);
  }

  /** A faction without patrols changes nothing and spawns nothing. */
  lemma NoPatrolsNoChange(zones: seq<Zone>, faction: Faction, loadouts: seq<Loadout>, rolls: seq<SpawnRoll>, firstId: nat)
    requires |rolls| == |faction.patrols| == 0
    ensures PatrolsOf(zones, faction, loadouts, rolls, firstId) == Sweep(zones, [], false)
  {
  }

  /**
    ss lists the states of the spawning phase: ss[k] before entry k, and each state is
    the step of the one before it.
   */
  ghost predicate IsSweepTrace(ss: seq<Sweep>, zones: seq<Zone>, faction: Faction, loadouts: seq<Loadout>, totals: seq<nat>,
                               rolls: seq<SpawnRoll>, firstId: nat)
    requires WellRolled(faction, totals, rolls)
  {
    && |ss| == |totals| + 1 && ss[0] == Sweep(zones, [], false)
    && forall k {:trigger SweepStep(ss[k], faction, loadouts, totals, rolls, firstId, k)} :: 0 <= k < |totals| ==>
         ss[k + 1] == SweepStep(ss[k], faction, loadouts, totals, rolls, firstId, k)
  }

  /** The trace of the spawning phase from `zones`. */
  ghost function SweepTrace(zones: seq<Zone>, faction: Faction, loadouts: seq<Loadout>, totals: seq<nat>,
                            rolls: seq<SpawnRoll>, firstId: nat): (ss: seq<Sweep>)
    requires WellRolled(faction, totals, rolls)
    ensures IsSweepTrace(ss, zones, faction, loadouts, totals, rolls, firstId)
    ensures ss[|totals|] == SweepUpTo(zones, faction, loadouts, totals, rolls, firstId, |totals|)
  {
    var ss := seq(|totals| + 1, k requires 0 <= k <= |totals| => SweepUpTo(zones, faction, loadouts, totals, rolls, firstId, k));
    assert forall k :: 0 <= k < |totals| ==> ss[k + 1] == SweepStep(ss[k], faction, loadouts, totals, rolls, firstId, k);
    ss
  }

  /** Once a draw has thrown, the rest of the trace stands still. */
  lemma TraceThrownStays(ss: seq<Sweep>, zones: seq<Zone>, faction: Faction, loadouts: seq<Loadout>, totals: seq<nat>,
                         rolls: seq<SpawnRoll>, firstId: nat, a: nat)
    requires WellRolled(faction, totals, rolls) && IsSweepTrace(ss, zones, faction, loadouts, totals, rolls, firstId)
    requires a <= |totals| && ss[a].threw
    ensures ss[|totals|] == ss[a]
  {
    var k := a;
    while k < |totals|
      invariant a <= k <= |totals| && ss[k] == ss[a]
    {
      assert ss[k + 1] == SweepStep(ss[k], faction, loadouts, totals, rolls, firstId, k);
      k := k + 1;
    }
  }

  /** A patrol spawned with PATROL behaviour is one more ship that countShipsByRole finds for PATROL in its system. */
  lemma SpawnAddsPatrol(members: seq<Entity>, loadouts: seq<Loadout>, faction: string, patrol: Patrol, spot: Spot, id: nat, system: string)
    ensures CountShipsByRole(faction, members + [Spawned(loadouts, faction, patrol, spot, id, system, Patrolling)], Patrolling)
         == CountShipsByRole(faction, members, Patrolling) + 1
  {
    var e := Spawned(loadouts, faction, patrol, spot, id, system, Patrolling);
    CountShipsAppend(faction, members, [e], ByRole(Patrolling));
    CountShipsOne(faction, e, ByRole(Patrolling));
  }

  /** The state of checkPatrols after some factions: the zones, the ships spawned so far, and whether a draw threw. */
  datatype Round = Round(zones: seq<Zone>, count: nat, threw: bool)

  /** The systems keep their names, owners and celestials, and members are only ever appended. */
  predicate Grows(zones: seq<Zone>, after: seq<Zone>) {
    |after| == |zones| &&
    forall i :: 0 <= i < |zones| ==>
      after[i].name == zones[i].name && after[i].owner == zones[i].owner
      && zones[i].members <= after[i].members
      && CelestialList(after[i].members) == CelestialList(zones[i].members)
  }

  predicate RollsFit(factions: seq<Faction>, rolls: seq<seq<SpawnRoll>>) {
    |rolls| == |factions| && forall f :: 0 <= f < |factions| ==> |rolls[f]| == |factions[f].patrols|
  }

  /**
    checkPatrols' visit to faction a, numbering its ships on from those spawned before it;
    once a draw has thrown, the remaining factions are not visited.
   */
  function RoundStep(r: Round, factions: seq<Faction>, loadouts: seq<Loadout>, rolls: seq<seq<SpawnRoll>>,
                     firstId: nat, a: nat): Round
    requires RollsFit(factions, rolls) && a < |factions|
  {
    if r.threw then r
    else
      var s := PatrolsOf(r.zones, factions[a], loadouts, rolls[a], firstId + r.count);
      Round(s.zones, r.count + |s.spawned|, s.threw)
  }

  /** checkPatrols after factions 0 .. a - 1, the spawned ships numbered on from `firstId`. */
  function PatrolsUpTo(zones: seq<Zone>, factions: seq<Faction>, loadouts: seq<Loadout>, rolls: seq<seq<SpawnRoll>>,
                       firstId: nat, a: nat): Round
    requires RollsFit(factions, rolls) && a <= |factions|
    decreases a
  {
    if a == 0 then Round(zones, 0, false)
    else RoundStep(PatrolsUpTo(zones, factions, loadouts, rolls, firstId, a - 1), factions, loadouts, rolls, firstId, a - 1)
  }

  /** rs lists the states of checkPatrols: rs[k] before faction k, each the step of the one before it. */
  ghost predicate IsRoundTrace(rs: seq<Round>, zones: seq<Zone>, factions: seq<Faction>, loadouts: seq<Loadout>,
                               rolls: seq<seq<SpawnRoll>>, firstId: nat)
    requires RollsFit(factions, rolls)
  {
    && |rs| == |factions| + 1 && rs[0] == Round(zones, 0, false)
    && forall k {:trigger RoundStep(rs[k], factions, loadouts, rolls, firstId, k)} :: 0 <= k < |factions| ==>
         rs[k + 1] == RoundStep(rs[k], factions, loadouts, rolls, firstId, k)
  }

  /** The trace of checkPatrols from `zones`. */
  ghost function RoundTrace(zones: seq<Zone>, factions: seq<Faction>, loadouts: seq<Loadout>, rolls: seq<seq<SpawnRoll>>,
                            firstId: nat): (rs: seq<Round>)
    requires RollsFit(factions, rolls)
    ensures IsRoundTrace(rs, zones, factions, loadouts, rolls, firstId)
    ensures rs[|factions|] == PatrolsUpTo(zones, factions, loadouts, rolls, firstId, |factions|)
  {
    var rs := seq(|factions| + 1, k requires 0 <= k <= |factions| => PatrolsUpTo(zones, factions, loadouts, rolls, firstId, k));
    assert forall k :: 0 <= k < |factions| ==> rs[k + 1] == RoundStep(rs[k], factions, loadouts, rolls, firstId, k);
    rs
  }

  /** One faction's turn in the trace of checkPatrols, given that faction's doPatrols result `s`. */
  lemma RoundTraceStep(rs: seq<Round>, zones: seq<Zone>, factions: seq<Faction>, loadouts: seq<Loadout>,
                       rolls: seq<seq<SpawnRoll>>, firstId: nat, a: nat, r: Round, s: Sweep)
    requires RollsFit(factions, rolls) && IsRoundTrace(rs, zones, factions, loadouts, rolls, firstId)
    requires a < |factions| && rs[a] == r && !r.threw
    requires s == PatrolsOf(r.zones, factions[a], loadouts, rolls[a], firstId + r.count)
    ensures rs[a + 1] == Round(s.zones, r.count + |s.spawned|, s.threw)
  {
    assert rs[a + 1] == RoundStep(rs[a], factions, loadouts, rolls, firstId, a);
  }

  /** A throw ends checkPatrols: the rest of the trace stands still. */
  lemma RoundTraceThrownStays(rs: seq<Round>, zones: seq<Zone>, factions: seq<Faction>, loadouts: seq<Loadout>,
                              rolls: seq<seq<SpawnRoll>>, firstId: nat, a: nat)
    requires RollsFit(factions, rolls) && IsRoundTrace(rs, zones, factions, loadouts, rolls, firstId)
    requires a <= |factions| && rs[a].threw
    ensures rs[|factions|] == rs[a]
  {
    var k := a;
    while k < |factions|
      invariant a <= k <= |factions| && rs[k] == rs[a]
    {
      assert rs[k + 1] == RoundStep(rs[k], factions, loadouts, rolls, firstId, k);
      k := k + 1;
    }
  }

  /**
    What one visit promises: the systems keep their shape and only the visited faction's
    grow, and a visit that starts unthrown does not throw when the faction has no patrols
    or has spawnable space.
   */
  ghost predicate RoundStepKeeps(r: Round, r2: Round, faction: Faction) {
    && KeepsSystems(r.zones, r2.zones, faction.name)
    && (!r.threw && (|faction.patrols| == 0 || Spawnable(r.zones, faction.name)) ==> !r2.threw)
    && (r.threw ==> r2.threw)
  }

  lemma RoundStepFacts(r: Round, r2: Round, factions: seq<Faction>, loadouts: seq<Loadout>, rolls: seq<seq<SpawnRoll>>,
                       firstId: nat, a: nat)
    requires RollsFit(factions, rolls) && a < |factions|
    requires r2 == RoundStep(r, factions, loadouts, rolls, firstId, a)
    ensures RoundStepKeeps(r, r2, factions[a])
  {
    if r.threw {
      KeepsSystemsRefl(r.zones, factions[a].name);
    } else {
      PatrolsOfFacts(r.zones, factions[a], loadouts, rolls[a], firstId + r.count);
    }
  }

  /**
    Over a whole round the systems only grow, and nothing throws when every faction with
    patrols has spawnable space.
   */
  lemma PatrolsUpToFacts(zones: seq<Zone>, factions: seq<Faction>, loadouts: seq<Loadout>,
                         rolls: seq<seq<SpawnRoll>>, firstId: nat)
    requires RollsFit(factions, rolls)
    ensures var r := PatrolsUpTo(zones, factions, loadouts, rolls, firstId, |factions|);
      && Grows(zones, r.zones)
      && ((forall f :: 0 <= f < |factions| && |factions[f].patrols| > 0 ==> Spawnable(zones, factions[f].name)) ==> !r.threw)
  {
    var rs := RoundTrace(zones, factions, loadouts, rolls, firstId);
    forall k | 0 <= k < |factions|
      ensures RoundStepKeeps(rs[k], rs[k + 1], factions[k])
    {
      RoundStepFacts(rs[k], rs[k + 1], factions, loadouts, rolls, firstId, k);
    }
    RoundChain(zones, rs, factions, |factions|);
  }

  /** Any run of visits that each keep their promise, from the untouched systems, keeps the round's promise. */
  lemma {:induction false} RoundChain(zones: seq<Zone>, rs: seq<Round>, factions: seq<Faction>, a: nat)
    requires a < |rs| && a <= |factions| && rs[0] == Round(zones, 0, false)
    requires forall k :: 0 <= k < a ==> RoundStepKeeps(rs[k], rs[k + 1], factions[k])
    ensures Grows(zones, rs[a].zones)
    ensures (forall f :: 0 <= f < a && |factions[f].patrols| > 0 ==> Spawnable(zones, factions[f].name)) ==> !rs[a].threw
    decreases a
  {
    if a == 0 {
      KeepsSystemsRefl(zones, "");
    } else {
      RoundChain(zones, rs, factions, a - 1);
      var f := factions[a - 1];
      GrowsChain(zones, rs[a - 1].zones, rs[a].zones, f.name);
      if (forall g :: 0 <= g < a && |factions[g].patrols| > 0 ==> Spawnable(zones, factions[g].name)) && |f.patrols| > 0 {
        GrowsSpawnable(zones, rs[a - 1].zones, f.name);
      }
    }
  }

  lemma GrowsChain(zones: seq<Zone>, mid: seq<Zone>, after: seq<Zone>, faction: string)
    requires Grows(zones, mid) && KeepsSystems(mid, after, faction)
    ensures Grows(zones, after)
  {
  }

  lemma GrowsSpawnable(zones: seq<Zone>, after: seq<Zone>, faction: string)
    requires Grows(zones, after) && Spawnable(zones, faction)
    ensures Spawnable(after, faction)
  {
    var i :| 0 <= i < |zones| && zones[i].owner == faction;
    assert after[i].owner == faction;
  }

  /** The counting loop's step: one more system adds its count when the faction owns it. */
  lemma TotalSnoc(zones: seq<Zone>, a: nat, faction: string, loadout: string)
    requires a < |zones|
    ensures Total(zones[..a + 1], faction, loadout)
         == Total(zones[..a], faction, loadout) + (if zones[a].owner == faction then CountShipsByLoadout(faction, zones[a].members, loadout) else 0)
  {
    assert zones[..a + 1][..a] == zones[..a];
  }

  /** A step of the trace at an entry short of its density: the placement lands and is kept, or it throws. */
  lemma TraceStepShort(ss: seq<Sweep>, zones: seq<Zone>, faction: Faction, loadouts: seq<Loadout>, totals: seq<nat>,
                       rolls: seq<SpawnRoll>, firstId: nat, a: nat, s: Sweep)
    requires WellRolled(faction, totals, rolls) && IsSweepTrace(ss, zones, faction, loadouts, totals, rolls, firstId)
    requires a < |totals| && ss[a] == s && !s.threw && Short(faction, totals, a)
    ensures ss[a + 1] == match Placed(s.zones, faction.name, loadouts, faction.patrols[a], rolls[a], firstId + |s.spawned|)
                         case None => Sweep(s.zones, s.spawned, true)
                         case Some(after) => Sweep(after, s.spawned + [a], false)
  {
    assert ss[a + 1] == SweepStep(ss[a], faction, loadouts, totals, rolls, firstId, a);
  }

  /** A step of the trace at an entry that meets its density changes nothing. */
  lemma TraceStepLong(ss: seq<Sweep>, zones: seq<Zone>, faction: Faction, loadouts: seq<Loadout>, totals: seq<nat>,
                      rolls: seq<SpawnRoll>, firstId: nat, a: nat)
    requires WellRolled(faction, totals, rolls) && IsSweepTrace(ss, zones, faction, loadouts, totals, rolls, firstId)
    requires a < |totals| && !Short(faction, totals, a)
    ensures ss[a + 1] == ss[a]
  {
    assert ss[a + 1] == SweepStep(ss[a], faction, loadouts, totals, rolls, firstId, a);
  }
}
