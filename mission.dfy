/**
  A mission an agent hands to the player. Building it draws a reward and a standing
  change from the record's ranges, reads its type, and picks one living target from a
  group the agent's faction dislikes, or gives up ("pre-aborts"). Every tick it checks
  the targets: a finished mission pays the player and moves standings, and a bounty
  someone else collected is revoked. Random draws come from the caller, and so do the
  targets' current states.
 */
module Missions {
  import opened Wrappers
  import opened Seqs
  import opened Entities
  import opened SolarSystems
  import opened MissionRules

  /** One call of the player's faction's `derivedModification`: towards `faction`, by `delta`. */
  datatype StandingChange = StandingChange(faction: string, delta: real)

  /** The parts of the universe a mission touches. */
  class Universe {
    const systems: seq<SolarSystem>
    /** The player's active missions. */
    var playerMissions: seq<Mission>
    /** The player ship's cash. */
    var playerCash: int
    /** The standing changes applied to the player's faction, oldest first. */
    var standingChanges: seq<StandingChange>
    /** The subjects of the messages agents sent the player, oldest first. */
    var inbox: seq<string>

    constructor (systems: seq<SolarSystem>, cash: int)
      ensures this.systems == systems && playerMissions == [] && playerCash == cash
      ensures standingChanges == [] && inbox == []
    {
      this.systems := systems;
      playerMissions := [];
      playerCash := cash;
      standingChanges := [];
      inbox := [];
    }
  }

  class Mission {
    const universe: Universe
    /** The name of the agent's faction, which the standing changes are about. */
    const agentFaction: string
    /** The agent's faction's standings, as the build reads them. */
    const standings: seq<Standing>
    var missionType: Option<MissionType>
    var aborted: bool
    var reward: int
    var deltaStanding: real
    /** None for the null a pre-abort leaves. */
    var briefing: Option<string>
    var targets: seq<Entity>

    /** Nothing of the universe a mission touches has changed. */
    twostate predicate Untouched()
      reads universe
    {
      && universe.playerMissions == old(universe.playerMissions) && universe.playerCash == old(universe.playerCash)
      && universe.standingChanges == old(universe.standingChanges) && universe.inbox == old(universe.inbox)
    }

    /** Mission(agent, pick): a new mission, built at once. */
    constructor (universe: Universe, agentFaction: string, standings: seq<Standing>, pick: MissionRecord, d: Draws)
      requires DrawsFit(d)
      modifies universe
      ensures this.universe == universe && this.agentFaction == agentFaction && this.standings == standings
      ensures var b := MissionRules.Build(pick, standings, Members(universe.systems), d);
        && missionType == b.missionType && reward == b.reward && deltaStanding == b.delta
        && briefing == b.briefing && targets == b.targets && !aborted
        && universe.inbox == old(universe.inbox) + (if b.preAborted then ["Nevermind"] else [])
      ensures universe.playerMissions == old(universe.playerMissions)
      ensures universe.playerCash == old(universe.playerCash) && universe.standingChanges == old(universe.standingChanges)
    {
      this.universe := universe;
      this.agentFaction := agentFaction;
      this.standings := standings;
      missionType := None;
      aborted := false;
      reward := 0;
      deltaStanding := 0.0;
      briefing := Some("NO AIM");
      targets := [];
      new;
      assert this !in universe.playerMissions;
      Build(pick, d);
    }

    /**
      build: reward and standing change from the record's ranges, the type from its type
      string, the briefing from its text, then the target search for that type, or a
      pre-abort when the type is neither.
     */
    method Build(pick: MissionRecord, d: Draws)
      requires DrawsFit(d) && missionType.None? && targets == []
      modifies this, universe
      ensures var b := MissionRules.Build(pick, standings, Members(universe.systems), d);
        && missionType == b.missionType && reward == b.reward && deltaStanding == b.delta
        && briefing == b.briefing && targets == b.targets && aborted == old(aborted)
        && universe.playerMissions == (if b.preAborted then RemoveValue(old(universe.playerMissions), this) else old(universe.playerMissions))
        && universe.inbox == old(universe.inbox) + (if b.preAborted then ["Nevermind"] else [])
      ensures universe.playerCash == old(universe.playerCash) && universe.standingChanges == old(universe.standingChanges)
    {
      reward := Reward(pick.cashMin, pick.cashMax, d.cash);
      deltaStanding := DeltaStanding(pick.deltaMin, pick.deltaMax, d.delta);
      if pick.kind == "DESTROY_STATION" {
        missionType := Some(DestroyStation);
      }
      if pick.kind == "BOUNTY_HUNT" {
        missionType := Some(BountyHunt);
      }
      briefing := Some(pick.briefing);
      BuildByType(pick, d);
    }

    /** The second half of build: the target search for the mission's type, or a pre-abort. */
    method BuildByType(pick: MissionRecord, d: Draws)
      requires DrawsFit(d) && targets == [] && missionType == TypeOf(pick.kind) && briefing == Some(pick.briefing)
      requires reward == Reward(pick.cashMin, pick.cashMax, d.cash)
      requires deltaStanding == DeltaStanding(pick.deltaMin, pick.deltaMax, d.delta)
      modifies this, universe
      ensures var b := MissionRules.Build(pick, standings, Members(universe.systems), d);
        && missionType == b.missionType && reward == b.reward && deltaStanding == b.delta
        && briefing == b.briefing && targets == b.targets && aborted == old(aborted)
        && universe.playerMissions == (if b.preAborted then RemoveValue(old(universe.playerMissions), this) else old(universe.playerMissions))
        && universe.inbox == old(universe.inbox) + (if b.preAborted then ["Nevermind"] else [])
      ensures universe.playerCash == old(universe.playerCash) && universe.standingChanges == old(universe.standingChanges)
    {
      if missionType.Some? {
        BuildOfType(pick, d, missionType.value);
      } else {
        assert MissionRules.Build(pick, standings, Members(universe.systems), d) == PreAborted(None);
        PreAbort();
      }
    }

    /** The target search of a record whose type is `t`: buildDestroyStation or buildBountyHunt. */
    method BuildOfType(pick: MissionRecord, d: Draws, t: MissionType)
      requires DrawsFit(d) && targets == [] && missionType == TypeOf(pick.kind) == Some(t) && briefing == Some(pick.briefing)
      requires reward == Reward(pick.cashMin, pick.cashMax, d.cash)
      requires deltaStanding == DeltaStanding(pick.deltaMin, pick.deltaMax, d.delta)
      modifies this, universe
      ensures var b := MissionRules.Build(pick, standings, Members(universe.systems), d);
        && missionType == b.missionType && reward == b.reward && deltaStanding == b.delta
        && briefing == b.briefing && targets == b.targets && aborted == old(aborted)
        && universe.playerMissions == (if b.preAborted then RemoveValue(old(universe.playerMissions), this) else old(universe.playerMissions))
        && universe.inbox == old(universe.inbox) + (if b.preAborted then ["Nevermind"] else [])
      ensures universe.playerCash == old(universe.playerCash) && universe.standingChanges == old(universe.standingChanges)
    {
      if t == DestroyStation {
        BuildDestroyStation(d);
      } else {
        BuildBountyHunt(d);
      }
      BuildTyped(pick, standings, Members(universe.systems), d, t);
    }

    /** buildDestroyStation: the target search among the systems' station lists. */
    method BuildDestroyStation(d: Draws)
      requires briefing.Some?
      modifies this, universe
      ensures BuiltAgainst(DestroyStation, d)
      ensures missionType == old(missionType) && aborted == old(aborted)
      ensures universe.playerCash == old(universe.playerCash) && universe.standingChanges == old(universe.standingChanges)
    {
      BuildAgainst(DestroyStation, d);
    }

    /** buildBountyHunt: the target search among the systems' ship lists. */
    method BuildBountyHunt(d: Draws)
      requires briefing.Some?
      modifies this, universe
      ensures BuiltAgainst(BountyHunt, d)
      ensures missionType == old(missionType) && aborted == old(aborted)
      ensures universe.playerCash == old(universe.playerCash) && universe.standingChanges == old(universe.standingChanges)
    {
      BuildAgainst(BountyHunt, d);
    }

    /**
      What a target search against type `t` leaves: the target appended and the briefing
      filled in, or the pre-abort's state.
     */
    twostate predicate BuiltAgainst(t: MissionType, d: Draws)
      reads this, universe, universe.systems
    {
      && old(briefing).Some?
      && match Target(standings, Members(universe.systems), t, d)
         case Some(target) =>
           && targets == old(targets) + [target]
           && briefing == Some(Briefed(old(briefing).value, t, target))
           && reward == old(reward) && deltaStanding == old(deltaStanding)
           && universe.playerMissions == old(universe.playerMissions) && universe.inbox == old(universe.inbox)
         case None =>
           && targets == old(targets) && reward == 0 && deltaStanding == 0.0 && briefing.None?
           && universe.playerMissions == RemoveValue(old(universe.playerMissions), this)
           && universe.inbox == old(universe.inbox) + ["Nevermind"]
    }

    /**
      The target search both mission types share: draw a target, then either append it
      and fill its details into the briefing, or pre-abort.
     */
    method BuildAgainst(t: MissionType, d: Draws)
      requires briefing.Some?
      modifies this, universe
      ensures BuiltAgainst(t, d)
      ensures missionType == old(missionType) && aborted == old(aborted)
      ensures universe.playerCash == old(universe.playerCash) && universe.standingChanges == old(universe.standingChanges)
    {
      var target := PickTarget(t, d);
      ghost var lists := Members(universe.systems);
      if target.Some? {
        AddTarget(t, target.value);
      } else {
        PreAbort();
      }
      assert Members(universe.systems) == lists;
    }

    /** Append the target and fill its details into the briefing. */
    method AddTarget(t: MissionType, target: Entity)
      requires briefing.Some?
      modifies this`targets, this`briefing
      ensures targets == old(targets) + [target]
      ensures briefing == Some(Briefed(old(briefing).value, t, target))
    {
      targets := targets + [target];
      FillBriefing(t, target);
    }

    /**
      List the bad standings, draw a group, collect that group's living stations (or
      ships) system by system, and draw one; None when either list is empty.
     */
    method PickTarget(t: MissionType, d: Draws) returns (target: Option<Entity>)
      ensures target == Target(standings, Members(universe.systems), t, d)
      ensures target.Some? ==> InSome(Members(universe.systems), target.value) && target.value.state == Alive
    {
      var bad := CollectBadStandings();
      if |bad| == 0 {
        return None;
      }
      var group := bad[NextInt(|bad|, d.group)];
      var options := CollectOptions(group, t);
      if |options| == 0 {
        return None;
      }
      target := Some(options[NextInt(|options|, d.target)]);
      CandidatesMembers(Members(universe.systems), group, t);
      assert target.value in options;
    }

    /** The briefing's placeholders replaced by the target's details, one replace at a time. */
    method FillBriefing(t: MissionType, target: Entity)
      requires briefing.Some?
      modifies this`briefing
      ensures briefing == Some(Briefed(old(briefing).value, t, target))
    {
      if t == DestroyStation {
        briefing := Some(ReplaceAll(briefing.value, "<TARGET>", target.name));
        briefing := Some(ReplaceAll(briefing.value, "<LOCATION>", target.system));
      } else {
        briefing := Some(ReplaceAll(briefing.value, "<NAME>", target.pilot));
        briefing := Some(ReplaceAll(briefing.value, "<SHIP>", target.hull));
        briefing := Some(ReplaceAll(briefing.value, "<SHIPNAME>", target.name));
        briefing := Some(ReplaceAll(briefing.value, "<LOCATION>", target.system));
      }
    }

    /** The loop that lists the names of the agent faction's bad standings. */
    method CollectBadStandings() returns (bad: seq<string>)
      ensures bad == BadStandings(standings)
    {
      bad := [];
      var a := 0;
      while a < |standings|
        invariant 0 <= a <= |standings|
        invariant bad == BadStandings(standings[..a])
      {
        assert standings[..a + 1][..a] == standings[..a];
        var entry := standings[a];
        if entry.name != "Player" && entry.name != "Entities" {
          if entry.value < 0.0 {
            bad := bad + [entry.name];
          }
        }
        a := a + 1;
      }
      assert standings[..a] == standings;
    }

    /** The outer loop of the option search: system by system, the eligible members of its list. */
    method CollectOptions(group: string, t: MissionType) returns (options: seq<Entity>)
      ensures options == Candidates(Members(universe.systems), group, t)
    {
      ghost var lists := Members(universe.systems);
      options := [];
      var a := 0;
      while a < |universe.systems|
        invariant 0 <= a <= |universe.systems|
        invariant options == Candidates(lists[..a], group, t)
      {
        var found := CollectEligible(TargetList(universe.systems[a].celestials, t), group);
        CandidatesSnoc(lists, a, group, t);
        options := options + found;
        a := a + 1;
      }
      assert lists[..a] == lists;
    }

    /** The inner loop of the option search: the members of one list that fly for `group` and are alive. */
    static method CollectEligible(list: seq<Entity>, group: string) returns (found: seq<Entity>)
      ensures found == Eligible(list, group)
    {
      found := [];
      var v := 0;
      while v < |list|
        invariant 0 <= v <= |list|
        invariant found == Eligible(list[..v], group)
      {
        assert list[..v + 1][..v] == list[..v];
        var test := list[v];
        if test.faction == group && test.state == Alive {
          found := found + [test];
        }
        v := v + 1;
      }
      assert list[..v] == list;
    }

    /** preAbort: drop the reward, the standing change and the briefing, leave the active list, say so. */
    method PreAbort()
      modifies this, universe
      ensures reward == 0 && deltaStanding == 0.0 && briefing.None?
      ensures missionType == old(missionType) && aborted == old(aborted) && targets == old(targets)
      ensures universe.playerMissions == RemoveValue(old(universe.playerMissions), this)
      ensures universe.inbox == old(universe.inbox) + ["Nevermind"]
      ensures universe.playerCash == old(universe.playerCash) && universe.standingChanges == old(universe.standingChanges)
    {
      reward := 0;
      deltaStanding := 0.0;
      universe.playerMissions := RemoveValue(universe.playerMissions, this);
      briefing := None;
      universe.inbox := universe.inbox + ["Nevermind"];
    }

    /** abortMission: mark the mission aborted, leave the active list, tell the player it is revoked. */
    method AbortMission()
      modifies this, universe
      ensures aborted
      ensures missionType == old(missionType) && reward == old(reward) && deltaStanding == old(deltaStanding)
      ensures briefing == old(briefing) && targets == old(targets)
      ensures universe.playerMissions == RemoveValue(old(universe.playerMissions), this)
      ensures universe.inbox == old(universe.inbox) + ["Mission Revoked"]
      ensures universe.playerCash == old(universe.playerCash) && universe.standingChanges == old(universe.standingChanges)
    {
      aborted := true;
      universe.playerMissions := RemoveValue(universe.playerMissions, this);
      universe.inbox := universe.inbox + ["Mission Revoked"];
    }

    /** failMission: unless aborted, move standing down by the delta and leave the active list. */
    method FailMission()
      modifies universe
      ensures old(aborted) ==> Untouched()
      ensures !old(aborted) ==>
        && universe.standingChanges == old(universe.standingChanges) + [StandingChange(agentFaction, -deltaStanding)]
        && universe.playerMissions == RemoveValue(old(universe.playerMissions), this)
        && universe.inbox == old(universe.inbox) + ["Mission Failed"]
        && universe.playerCash == old(universe.playerCash)
    {
      if !aborted {
        universe.standingChanges := universe.standingChanges + [StandingChange(agentFaction, -deltaStanding)];
        universe.playerMissions := RemoveValue(universe.playerMissions, this);
        universe.inbox := universe.inbox + ["Mission Failed"];
      }
    }

    /** completeMission: unless aborted, pay the reward, move standing up by the delta, leave the active list. */
    method CompleteMission()
      modifies universe
      ensures old(aborted) ==> Untouched()
      ensures !old(aborted) ==>
        && universe.playerCash == old(universe.playerCash) + reward
        && universe.standingChanges == old(universe.standingChanges) + [StandingChange(agentFaction, deltaStanding)]
        && universe.playerMissions == RemoveValue(old(universe.playerMissions), this)
        && universe.inbox == old(universe.inbox) + ["Mission Completed"]
    {
      if !aborted {
        universe.playerCash := universe.playerCash + reward;
        universe.standingChanges := universe.standingChanges + [StandingChange(agentFaction, deltaStanding)];
        universe.playerMissions := RemoveValue(universe.playerMissions, this);
        universe.inbox := universe.inbox + ["Mission Completed"];
      }
    }

    /** checkDestroyStation over the targets' current states: true when none is alive. */
    method CheckDestroyStation(now: seq<Entity>) returns (ok: bool)
      ensures ok <==> AllDown(now)
    {
      var a := 0;
      while a < |now|
        invariant 0 <= a <= |now|
        invariant forall i :: 0 <= i < a ==> now[i].state != Alive
      {
        if now[a].state == Alive {
          return false;
        }
        a := a + 1;
      }
      return true;
    }

    /**
      checkBountyHunt over the targets' current states: false at the first one alive;
      at the first one dead by another hand, revoke the mission and answer false; true
      when every one fell to the player.
     */
    method CheckBountyHunt(now: seq<Entity>) returns (ok: bool)
      modifies this, universe
      ensures ok <==> BountyVerdict(now) == Done
      ensures BountyVerdict(now) == Revoked ==>
        && aborted
        && universe.playerMissions == RemoveValue(old(universe.playerMissions), this)
        && universe.inbox == old(universe.inbox) + ["Mission Revoked"]
      ensures BountyVerdict(now) != Revoked ==>
        aborted == old(aborted) && universe.playerMissions == old(universe.playerMissions) && universe.inbox == old(universe.inbox)
      ensures missionType == old(missionType) && reward == old(reward) && deltaStanding == old(deltaStanding)
      ensures briefing == old(briefing) && targets == old(targets)
      ensures universe.playerCash == old(universe.playerCash) && universe.standingChanges == old(universe.standingChanges)
    {
      var a := 0;
      while a < |now|
        invariant 0 <= a <= |now|
        invariant BountyVerdict(now[a..]) == BountyVerdict(now)
      {
        assert now[a..][1..] == now[a + 1..];
        if now[a].state == Alive {
          return false;
        } else if now[a].lastBlow != "Player" {
          AbortMission();
          return false;
        }
        a := a + 1;
      }
      return true;
    }

    /** missionComplete: the check for the mission's type; a mission of no type is complete. */
    method MissionComplete(now: seq<Entity>) returns (ok: bool)
      modifies this, universe
      ensures ok <==> TickVerdict(missionType, now) == Done
      ensures TickVerdict(missionType, now) == Revoked ==>
        && aborted
        && universe.playerMissions == RemoveValue(old(universe.playerMissions), this)
        && universe.inbox == old(universe.inbox) + ["Mission Revoked"]
      ensures TickVerdict(missionType, now) != Revoked ==>
        aborted == old(aborted) && universe.playerMissions == old(universe.playerMissions) && universe.inbox == old(universe.inbox)
      ensures missionType == old(missionType) && reward == old(reward) && deltaStanding == old(deltaStanding)
      ensures briefing == old(briefing) && targets == old(targets)
      ensures universe.playerCash == old(universe.playerCash) && universe.standingChanges == old(universe.standingChanges)
    {
      if missionType == Some(DestroyStation) {
        ok := CheckDestroyStation(now);
      } else if missionType == Some(BountyHunt) {
        ok := CheckBountyHunt(now);
      } else {
        ok := true;
      }
    }

    /** missionFailed: no failure condition is defined. */
    function MissionFailed(): (failed: bool)
      ensures !failed
    {
      false
    }

    /**
      periodicUpdate, given the targets' current states: complete the mission when its
      check says so, and (never, as missionFailed is always false) fail it. Only a mission
      that is not aborted pays; a revoked bounty pays nothing and leaves the active list.
     */
    method PeriodicUpdate(now: seq<Entity>)
      requires |now| == |targets| && forall i :: 0 <= i < |now| ==> now[i].id == targets[i].id
      modifies this, universe
      ensures missionType == old(missionType) && reward == old(reward) && deltaStanding == old(deltaStanding)
      ensures briefing == old(briefing) && targets == old(targets)
      ensures var v := TickVerdict(missionType, now);
        && (v == Pending ==> aborted == old(aborted) && Untouched())
        && (v == Revoked ==>
              && aborted
              && universe.playerMissions == RemoveValue(old(universe.playerMissions), this)
              && universe.inbox == old(universe.inbox) + ["Mission Revoked"]
              && universe.playerCash == old(universe.playerCash)
              && universe.standingChanges == old(universe.standingChanges))
        && (v == Done && old(aborted) ==> aborted && Untouched())
        && (v == Done && !old(aborted) ==>
              && !aborted
              && universe.playerCash == old(universe.playerCash) + reward
              && universe.standingChanges == old(universe.standingChanges) + [StandingChange(agentFaction, deltaStanding)]
              && universe.playerMissions == RemoveValue(old(universe.playerMissions), this)
              && universe.inbox == old(universe.inbox) + ["Mission Completed"])
    {
      var complete := MissionComplete(now);
      if complete {
        CompleteMission();
      }
      // The failure branch would call FailMission, but missionFailed is constantly false.
      assert !MissionFailed();
    }
  }
}
