# High-Albedo world maintenance, modelled in Dafny

This project models the part of the High-Albedo space game that keeps the world going. It covers three components.

- **Solar systems (`SolarSystem`).** A system owns an ordered list of members: planets, ships, stations and jumpholes. It builds the list from template records when the world is generated, placing each ship and station next to a named anchor, at explicit coordinates or at a random spot. Entities can be put in and pulled out. Every tick runs each member's own update and drops the members that died.
- **The patrol controller (`God`).** On each update it visits the factions in order. For each faction with a patrol list, it first counts the faction's ships of every loadout across the systems it owns, and only then spawns one ship for every loadout below its density. The ship goes near a celestial of a system the faction owns. A random draw from an empty list throws, and the throw ends the whole update.
- **Missions (`Mission`).** An agent hands the player a mission. Building it draws a reward and a standing change from the record's `min>max` ranges and reads the mission type. It then picks one living station (or ship) of a group the agent's faction dislikes, or gives up ("pre-aborts"). Each tick checks the targets. A finished mission pays the player and moves standings. A bounty that someone else collected is revoked.

Files:

| file | contents |
|---|---|
| `wrappers.dfy` | `Option` |
| `seqs.dfy` | search, count, filter and `ArrayList.remove` on sequences |
| `entities.dfy` | the entity record, the list accessors and `nextInt` |
| `placement.dfy` | the records and the placement and generation rules of a system |
| `zone_update.dfy` | the per-tick pass over a member list, as written and corrected |
| `solar_system.dfy` | the `SolarSystem` class |
| `patrol_rules.dfy` | counting, totals, spawn placement and the spawning sweep, as functions |
| `god.dfy` | the `God` class |
| `mission_rules.dfy` | reward, standings, target choice and verdicts, as functions |
| `mission.dfy` | the `Universe` state a mission touches and the `Mission` class |

Randomness is a parameter: every `nextInt(bound)` is a caller-supplied raw number reduced modulo `bound`, so every outcome of the real draw is covered, and every `nextFloat` is a caller-supplied real in [0, 1). Entities are values with an `id` handle that stands for object identity.

Where the code and the game's documented intent disagree, the model follows the code:

- The reward range is documented as inclusive. The code multiplies a `nextFloat` in [0, 1) by `max - min`, so the reward reaches `max` only when `min == max` (`MissionRules.Reward`).
- A faction without sovereignty is documented as skipped, with the other factions going on. In the code, `nextInt(0)` throws, and the catch in `periodicUpdate` ends the update for every remaining faction. The model's `threw` result does the same.
- The tick pass is documented as updating every member. The code skips one; see "## Findings".

## Model

| member | source | states |
|---|---|---|
| Seqs.RemoveFirst | src/universe/SolarSystem.java:230-232 | `ArrayList.remove(Object)`: drops exactly the first element that matches, and is the identity when there is none |
| Seqs.RemoveValue | src/universe/Mission.java:228 | removal from the active-mission list: no-op when absent, otherwise one element shorter; never adds an element; on a list without duplicates the mission is gone afterwards and the list stays duplicate-free |
| Seqs.RemoveValueIsRemoveFirst | src/universe/Mission.java:228 | the element removed is the first occurrence: the elements before it and after it are kept, in order |
| Entities.NextInt | src/engine/God.java:125-131 | `Random.nextInt(bound)` as a caller-supplied draw: always below `bound` |
| Placement.Place | src/universe/SolarSystem.java:133-154 | placement of a ship or station. With an anchor name: unplaced if no member has that name; otherwise the first such member plus x in [-800, 800) and y in [-800, spanY - 800). Without one: the explicit coordinates when both are given, otherwise a spot in [0, 1000000)² |
| Placement.PlaceReachesEveryOffset | src/universe/SolarSystem.java:136-137 | every jitter inside those ranges is reached by some draw, so the bounds are tight |
| Placement.MatchingIsFilter | src/universe/SolarSystem.java:67-96 | the records a system uses are exactly those whose `system` field equals its name, in record order |
| Placement.MakeBuilt | src/universe/SolarSystem.java:99-216 | each builder produces a live member of the record's class with the record's name, handle and fixed attributes |
| Placement.AddMembersShape | src/universe/SolarSystem.java:68-73 | one generation loop keeps the existing members and appends exactly one built member per record of this system, in order, with consecutive handles |
| Placement.GeneratedOrder | src/universe/SolarSystem.java:67-96 | generateSystem yields one member per matching record: all planets, then ships, then stations, then jumpholes, each group in record order |
| ZoneUpdate.Pass | src/universe/SolarSystem.java:242-250 | the as-written pass: never longer than the list it started from, and since a removal skips the next member, at most one member in two is removed |
| ZoneUpdate.PassStepLive | src/universe/SolarSystem.java:243-248 | one loop iteration on a member that survives its update: updated in place, index advances |
| ZoneUpdate.PassStepDead | src/universe/SolarSystem.java:243-248 | one loop iteration on a member its update killed: removed, and the index still advances past its successor |
| ZoneUpdate.FatesCharacterised | src/universe/SolarSystem.java:243-248 | in the as-written pass a member is skipped if and only if the member before it was removed; any other member is removed if and only if its own update left it DEAD |
| ZoneUpdate.PassIsSurvivors | src/universe/SolarSystem.java:242-250 | the as-written pass keeps exactly the members not removed, in their original order |
| ZoneUpdate.PassRemovesOnlyDead | src/universe/SolarSystem.java:242-250 | the as-written pass removes only members DEAD after their update, and the list shrinks by exactly the number removed |
| ZoneUpdate.PassAgreesWithoutEarlyDeaths | src/universe/SolarSystem.java:242-250 | when no member except possibly the last dies, the as-written pass equals the corrected one |
| ZoneUpdate.SkipAfterRemoval | src/universe/SolarSystem.java:243-248 | two members killed by their updates: the as-written pass keeps the second one, never updated and still ALIVE; the corrected pass removes both |
| ZoneUpdate.TickAllIsSurvivors | src/universe/SolarSystem.java:242-250 | the corrected pass updates every member once, drops exactly those left DEAD, keeps the rest in order, and its length is the count minus the dead |
| SolarSystems.SolarSystem.constructor | src/universe/SolarSystem.java:50-55 | the new system's members are exactly what generateSystem builds for its name |
| SolarSystems.SolarSystem.AddMatching | src/universe/SolarSystem.java:68-73 | one generation loop appends the member built for each record of this system, and nothing for other systems |
| SolarSystems.SolarSystem.MakePlanet | src/universe/SolarSystem.java:99-114 | a planet at its record's coordinates, whatever the draws |
| SolarSystems.SolarSystem.MakeJumphole | src/universe/SolarSystem.java:201-216 | a jumphole at its record's coordinates leading to `out`, in this system |
| SolarSystems.SolarSystem.Anchor | src/universe/SolarSystem.java:134-139 | the search for `near` returns the first member of that name, or none when no member has it |
| SolarSystems.SolarSystem.MakeShip | src/universe/SolarSystem.java:116-159 | the ship built and placed as the placement rule says, against the members added so far |
| SolarSystems.SolarSystem.MakeStation | src/universe/SolarSystem.java:161-199 | the same for a station, with ±800 jitter on both axes |
| SolarSystems.SolarSystem.PutEntityInSystem | src/universe/SolarSystem.java:226-228 | appends exactly one member and leaves the prefix unchanged |
| SolarSystems.SolarSystem.PullEntityFromSystem | src/universe/SolarSystem.java:230-232 | removes the first member with the entity's handle; no change when it is absent |
| SolarSystems.SolarSystem.Init | src/universe/SolarSystem.java:234-239 | every member is initialised once, in place, and the length is unchanged |
| SolarSystems.SolarSystem.PeriodicUpdate | src/universe/SolarSystem.java:241-250 | the in-place loop leaves exactly the as-written pass of the old list (with the skip) |
| SolarSystems.SolarSystem.PeriodicUpdateFixed | src/universe/SolarSystem.java:241-250 | the corrected loop leaves exactly the pass that visits every member once |
| PatrolRules.CountShipsByLoadout | src/engine/God.java:144-159 | the reference count of countShipsByLoadout: the number of the faction's ships built from the loadout, at most the ship list's length; the loop in `Engine.God.CountShipsByLoadout` is proved equal to it |
| PatrolRules.CountShipsByRole | src/engine/God.java:161-176 | the reference count of countShipsByRole: the number of the faction's ships with the behaviour, at most the ship list's length; the loop in `Engine.God.CountShipsByRole` is proved equal to it |
| PatrolRules.TotalCountsOwnedSpace | src/engine/God.java:101-117 | a loadout's total is the number of the faction's ships of that loadout over the members of exactly the systems it owns |
| PatrolRules.SovIndices | src/engine/God.java:124 | the faction's sovereignty is exactly the systems whose owner is the faction |
| PatrolRules.Request | src/engine/God.java:123-131 | a spawn spot lies in a system the faction owns, within [-4000, 4000) of one of that system's celestials on each axis; it is absent (the throw) when the faction owns nothing, and present when every owned system has a celestial |
| PatrolRules.OutfitOf | src/engine/God.java:184-200 | the hull, equipment and cargo of the first loadout record named like the template; the default hull "Mass Testing Brick" with nothing installed when there is no template or no match |
| PatrolRules.Spawned | src/engine/God.java:216-228 | the spawned ship: a live ship named and templated after the loadout, of the faction, at the spot, with the given behaviour and system, outfitted by OutfitOf |
| PatrolRules.SpawnedCounts | src/engine/God.java:216-228 | a spawned patrol counts toward its own loadout's total and no other, and is never a celestial |
| PatrolRules.TotalPut | src/engine/God.java:227 | putting one ship into a system raises a total by one exactly when the system is the faction's and the ship matches |
| PatrolRules.SweepStepFacts | src/engine/God.java:119-137 | one patrol entry: keeps the systems' shape, raises only the spawned entry's loadout total, cannot throw in spawnable space, records the entry exactly when it was short |
| PatrolRules.SweepUpToFacts | src/engine/God.java:119-137 | after entries 0..a-1 the entries spawned for are the short ones in order (a prefix when a draw threw), and every total has risen by its spawns |
| PatrolRules.PatrolsOfFacts | src/engine/God.java:99-137 | doPatrols only grows the faction's own systems; the entries spawned for are exactly, in order, those whose pre-spawn total was below density (a prefix if a draw threw); nothing throws in spawnable space |
| PatrolRules.PatrolsTopUp | src/engine/God.java:119-137 | in spawnable space, every entry below density gains exactly one ship of its loadout and every other entry's total is unchanged |
| PatrolRules.NoPatrolsNoChange | src/engine/God.java:99 | a faction without patrol entries changes nothing and spawns nothing |
| PatrolRules.TraceThrownStays | src/engine/God.java:119-137 | once a draw has thrown, no later entry changes anything |
| PatrolRules.SpawnAddsPatrol | src/engine/God.java:161-176 | a spawned PATROL ship is one more ship that countShipsByRole finds for PATROL |
| PatrolRules.RoundTraceThrownStays | src/engine/God.java:66-72 | once a faction's draw has thrown, the remaining factions are not visited |
| PatrolRules.PatrolsUpToFacts | src/engine/God.java:78-83 | a whole round only grows the systems, keeping names, owners and celestials; nothing throws when every faction with patrols has spawnable space |
| Engine.God.PeriodicUpdate | src/engine/God.java:64-73 | the systems end as the round of checkPatrols leaves them, and a throw is caught and reported |
| Engine.God.CheckPatrols | src/engine/God.java:78-83 | the loop over factions leaves exactly the round's systems, ship count and throw flag |
| Engine.God.PatrolTurn | src/engine/God.java:80-82 | one faction's turn is one step of the round |
| Engine.God.DoPatrols | src/engine/God.java:92-139 | the systems and entries spawned for are exactly doPatrols' result on the systems as they were on entry |
| Engine.God.CountLoadouts | src/engine/God.java:100-117 | count[v] is entry v's loadout total over the owned systems, computed before any spawn |
| Engine.God.AddSystemCounts | src/engine/God.java:104-116 | one system adds its per-loadout counts when the faction owns it, and nothing otherwise |
| Engine.God.TopUp | src/engine/God.java:118-137 | the spawning loop leaves the sweep's final state, stopping at a throw |
| Engine.God.CheckDensity | src/engine/God.java:119-136 | one entry of the spawning loop is one step of the sweep |
| Engine.God.SpawnPatrol | src/engine/God.java:122-135 | one spawn: a throw exactly when the placement has no spot, nothing changed then; otherwise the systems become the placement's result |
| Engine.God.DrawSpot | src/engine/God.java:123-131 | the draws pick exactly the spot the placement rule names |
| Engine.God.SpawnInto | src/engine/God.java:135 | the chosen system gains exactly the patrol ship, and no other system changes |
| Engine.God.SpawnShip | src/engine/God.java:216-230 | appends exactly the spawned ship to the given system |
| Engine.God.MakeShip | src/engine/God.java:178-214 | the ship made from the first matching loadout record, or the default hull and empty outfit |
| Engine.God.CountShipsByLoadout | src/engine/God.java:144-159 | the loop count equals the count of ships of the faction built from the loadout |
| Engine.God.CountShipsByRole | src/engine/God.java:161-176 | the loop count equals the count of ships of the faction with the behaviour |
| MissionRules.TypeOf | src/universe/Mission.java:89-95 | DESTROY_STATION if and only if the string is "DESTROY_STATION", BOUNTY_HUNT if and only if it is "BOUNTY_HUNT", no type otherwise |
| MissionRules.Truncate | src/universe/Mission.java:77 | the `(long)` cast: rounds toward zero |
| MissionRules.Reward | src/universe/Mission.java:72-79 | with min ≤ max the reward is in [min, max], below max unless min = max; with the bounds reversed it is in (max, min] |
| MissionRules.DeltaStanding | src/universe/Mission.java:81-87 | with min ≤ max the standing change is in [min, max], below max unless the range is a single value |
| MissionRules.BadStandingsMembers | src/universe/Mission.java:117-125 | a name is listed if and only if some standing with that name is negative and is neither "Player" nor "Entities" |
| MissionRules.EligibleMembers | src/universe/Mission.java:138-143 | an object is an option of a list if and only if it is in the list, of the group and alive |
| MissionRules.TargetListMembers | src/universe/Mission.java:137 | the list searched is the station list for station missions and the ship list for bounties |
| MissionRules.CandidatesMembers | src/universe/Mission.java:135-144 | an object is an option if and only if it is in some system and is a living station (ship) of the group |
| MissionRules.ReplaceAll | src/universe/Mission.java:155-156 | `String.replace`: a text shorter than the placeholder is unchanged, and a replacement as long as the placeholder keeps the length |
| MissionRules.ReplaceAtFirstOccurrence | src/universe/Mission.java:155-156 | `String.replace` at the first occurrence: the text before it is kept, the placeholder becomes the replacement, and the rest is replaced in turn |
| MissionRules.ReplaceAbsent | src/universe/Mission.java:155-156 | a briefing without the placeholder is left as it is |
| MissionRules.BriefedWithoutPlaceholders | src/universe/Mission.java:155-214 | a briefing with no '<' holds none of the placeholders and comes out of either build unchanged |
| MissionRules.BriefedTargetFilled | src/universe/Mission.java:154-156 | a station briefing with one "<TARGET>" and no other '<' comes out with the station's name in that place and everything else kept |
| MissionRules.BuildTyped | src/universe/Mission.java:98-105 | for a known type: no target means a pre-abort, and a target means a mission with the drawn reward, standing change, filled briefing and that one target |
| MissionRules.BuildPreAborts | src/universe/Mission.java:68-106 | a build pre-aborts if and only if the type is unknown, no standing is bad, or the drawn group has no option; a pre-aborted build has zero reward, zero standing change, no briefing and no target |
| MissionRules.BuildTarget | src/universe/Mission.java:145-153 | a build that goes through has exactly one target: in some system, alive, of the mission's kind, of a group with a bad standing; the reward is in the cash range |
| MissionRules.BountyDoneIff | src/universe/Mission.java:309-328 | a bounty is done if and only if every target is dead by the player's hand (so an empty list is done) |
| MissionRules.BountyRevokedIff | src/universe/Mission.java:309-328 | a bounty is revoked if and only if, in scan order, a target killed by someone else comes before any living one |
| MissionRules.TickVerdictFacts | src/universe/Mission.java:283-291 | only a bounty can be revoked; a station mission is done if and only if no target is alive; a mission of no type is done |
| MissionRules.PreAbortedIsDone | src/universe/Mission.java:257-269 | a pre-aborted mission has no targets, so a later tick finds it done |
| Missions.Mission.constructor | src/universe/Mission.java:63-66 | a new mission is built from the record at once: fields as the build rule says, not aborted, an inbox note exactly on pre-abort |
| Missions.Mission.Build | src/universe/Mission.java:68-106 | the fields after build are the build rule's outcome; the mission leaves the active list and the agent says "Nevermind" exactly on pre-abort; cash and standings untouched |
| Missions.Mission.BuildByType | src/universe/Mission.java:98-105 | the dispatch on the type yields the build rule's outcome |
| Missions.Mission.BuildOfType | src/universe/Mission.java:98-102 | for a record of a known type, the target search of that type yields the build rule's outcome: the drawn reward, standing change, filled briefing and target, or a pre-abort |
| Missions.Mission.BuildDestroyStation | src/universe/Mission.java:108-161 | the station search appends the drawn station and fills the briefing, or pre-aborts |
| Missions.Mission.BuildBountyHunt | src/universe/Mission.java:163-219 | the ship search appends the drawn ship and fills the briefing, or pre-aborts |
| Missions.Mission.BuildAgainst | src/universe/Mission.java:126-160 | the shared search either appends the drawn target and fills the briefing, or leaves the pre-abort state |
| Missions.Mission.PickTarget | src/universe/Mission.java:116-148 | the drawn target is the rule's target: in some system and alive |
| Missions.Mission.AddTarget | src/universe/Mission.java:150-156 | appends exactly the target and fills its details into the briefing |
| Missions.Mission.FillBriefing | src/universe/Mission.java:210-214 | the placeholders are replaced in the source's order |
| Missions.Mission.CollectBadStandings | src/universe/Mission.java:117-125 | the loop lists exactly the bad standings, in order |
| Missions.Mission.CollectOptions | src/universe/Mission.java:135-144 | the nested loops collect exactly the options, system by system |
| Missions.Mission.CollectEligible | src/universe/Mission.java:137-143 | the inner loop keeps exactly the living members of the group, in order |
| Missions.Mission.PreAbort | src/universe/Mission.java:257-269 | zero reward and standing change, no briefing, out of the active list, "Nevermind" sent; type and targets kept |
| Missions.Mission.AbortMission | src/universe/Mission.java:225-231 | aborted set, out of the active list, "Mission Revoked" sent, nothing else changed |
| Missions.Mission.FailMission | src/universe/Mission.java:233-242 | no effect once aborted; otherwise standing moves by minus the delta, the mission leaves the list, "Mission Failed" is sent, and cash is unchanged |
| Missions.Mission.CompleteMission | src/universe/Mission.java:244-255 | no effect once aborted; otherwise exactly `reward` is paid, standing moves by the delta, the mission leaves the list, "Mission Completed" is sent |
| Missions.Mission.CheckDestroyStation | src/universe/Mission.java:297-307 | true if and only if no target is alive |
| Missions.Mission.CheckBountyHunt | src/universe/Mission.java:309-328 | true if and only if every target is dead by the player's hand; it aborts exactly when a target killed by someone else comes before any living one |
| Missions.Mission.MissionComplete | src/universe/Mission.java:283-291 | the type's check, and true for a mission of no type; a revoke only from a bounty |
| Missions.Mission.MissionFailed | src/universe/Mission.java:293-295 | always false |
| Missions.Mission.PeriodicUpdate | src/universe/Mission.java:271-281 | by the tick's verdict. Pending: nothing changes. Revoked: aborted and removed, no pay. Done: pays, moves standing and removes unless already aborted, in which case nothing changes |

## Findings

| source | as written | input that shows it | evidently intended | confidence | as-written member | corrected member |
|---|---|---|---|---|---|---|
| src/universe/SolarSystem.java:243-248 | after `remove(a)` the loop still increments `a`, so the member that slid into slot `a` is neither updated nor checked this tick | two ALIVE members whose updates both kill them: the pass removes the first and keeps the second, never updated and still ALIVE | every member is updated once per tick and every member left DEAD is removed | not executed | SolarSystems.SolarSystem.PeriodicUpdate, ZoneUpdate.SkipAfterRemoval | SolarSystems.SolarSystem.PeriodicUpdateFixed, ZoneUpdate.TickAllIsSurvivors |

## Left out

- Template parsing (`Parser`, `getTermsOfType`, the `min>max` splits, `Integer`/`Long`/`Double.parseDouble`): records arrive already parsed. A malformed record is not modelled.
- src/lib/AstralIO.java is not part of this model: file, image, audio and save-game I/O.
- `String.matches` is modelled as string equality, so names are assumed to hold no regular-expression metacharacters.
- The entities' own `init` and `periodicUpdate` are caller-supplied functions on the entity record. `Ship.init`, `addInitialCargo`, `setLoadout` and `setEquip` keep only the strings they are handed.
- Coordinates are integers. The `(int)` truncation in `setX`/`setY` and the `double` arithmetic of positions are not modelled. Records carry integer coordinates.
- `SolarSystem.render`, `getBounds`, `collideWith` and `getState`, and the getters in `Mission`: stubs or plain field reads.
- The model's `SolarSystem` constructor takes the owning faction (and the records) in place of the `Universe` and `Parser` arguments. The `getOwner` accessor is not in the modelled files, so the owner is a field set at construction.
- `getShipList`, `getStationList`, `getCelestialList` and `getSov` are not defined in the modelled files. They are filters over the member list; sovereignty is the systems whose owner is the faction, in universe order.
- `God.initFactions` reads a file: the factions, their patrol lists and the loadout records are given to the constructor.
- `God.checkStations` has an empty body and is not modelled.
- The message printed by the `catch` in `God.periodicUpdate` is replaced by the `reported` result. The message printed by `spawnShip` is left out.
- Engine.God.PeriodicUpdate: covers only the exception that nextInt(0) raises for an empty sovereignty or celestial list. No other throw is modelled.
- The ship count in `doPatrols` is a Java `int` and the reward and cash are Java `long`. They are unbounded integers here, so overflow is not modelled.
- Java float arithmetic is not modelled. `nextFloat` is a real in [0, 1), and products and sums of reals are exact.
- The `Mission(Ship agent)` constructor draws a random record from the mission cache, which is not part of this model. Only `Mission(agent, pick)` is modelled.
- The agent ship appears only as its faction's name and standings. `composeMessage` only appends the message subject to the player's inbox. `derivedModification` only appends a standing-change entry to a ledger.
- Missions.Mission.PeriodicUpdate: targets are value records, so the model cannot follow a reference to a target's later state. The caller passes the targets' current states, matched to the targets by handle.
- Missions.Mission.PeriodicUpdate: its failure branch cannot run, because `missionFailed` is constantly false. The model states this by an assertion instead of a call.
- PatrolRules.CountShipsByLoadout: a ship built from a system record carries no template, because the record builders never set one. For such a ship of the faction, `getTemplate().matches(loadout)` at src/engine/God.java:152 throws on the null it dereferences, and the catch in `periodicUpdate` then ends the round for every remaining faction. The model instead counts that ship as not built from the loadout (`PatrolRules.Matches` compares the template with `Some(loadout)`), so the round goes on. The same holds for Engine.God.CountShipsByLoadout.
- MissionRules.BountyVerdict: an empty `lastBlow` stands for a dead target on which no blow was recorded. For such a target, `getLastBlow().getFaction()` at src/universe/Mission.java:317 throws on the null it dereferences. The model instead judges the bounty revoked, as for a blow by anyone other than the player. The same holds for Missions.Mission.CheckBountyHunt, which then aborts the mission.
- PatrolRules.PatrolsTopUp: the per-loadout "exactly one more ship" statement assumes the faction's patrol entries name different loadouts. PatrolRules.PatrolsOfFacts states the entries spawned for without that assumption.
