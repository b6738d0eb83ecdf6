/**
  The rules a mission follows, as functions over values: how a mission record becomes
  a reward, a standing change, a type, a briefing and a target, and how the targets'
  states decide whether the mission is still waiting, complete, or revoked.
 */
module MissionRules {
  import opened Wrappers
  import opened Seqs
  import opened Entities

  /** Mission.Type. */
  datatype MissionType = BountyHunt | DestroyStation

  /** One entry of a faction's standings list: a faction name and how it is regarded. */
  datatype Standing = Standing(name: string, value: real)

  /**
    A mission template record, with its "min>max" ranges already split and parsed:
    `cash` is a range of whole credits, `delta` a range of standing changes.
   */
  datatype MissionRecord = MissionRecord(cashMin: int, cashMax: int, deltaMin: real, deltaMax: real,
                                         kind: string, briefing: string)

  /**
    The random draws of one build: two `nextFloat` fractions, for the reward and the
    standing change, and two raw `nextInt` draws, for the group and the target.
   */
  datatype Draws = Draws(cash: real, delta: real, group: nat, target: nat)

  predicate DrawsFit(d: Draws) {
    0.0 <= d.cash < 1.0 && 0.0 <= d.delta < 1.0
  }

  /** The type a record's type string names; None when it names neither. */
  function TypeOf(raw: string): (t: Option<MissionType>)
    ensures t == Some(DestroyStation) <==> raw == "DESTROY_STATION"
    ensures t == Some(BountyHunt) <==> raw == "BOUNTY_HUNT"
  {
    if raw == "BOUNTY_HUNT" then Some(BountyHunt)
    else if raw == "DESTROY_STATION" then Some(DestroyStation)
    else None
  }

  /** The `(long)` cast of a real: the integer part, rounding toward zero. */
  function Truncate(x: real): (n: int)
    ensures 0.0 <= x ==> 0 <= n && n as real <= x < n as real + 1.0
    ensures x < 0.0 ==> n <= 0 && n as real - 1.0 < x <= n as real
  {
    if 0.0 <= x then x.Floor else -((-x).Floor)
  }

  /** A fraction below one of a non-negative spread stays within the spread. */
  lemma FractionOf(draw: real, spread: real)
    requires 0.0 <= draw < 1.0 && 0.0 <= spread
    ensures 0.0 <= draw * spread <= spread
    ensures 0.0 < spread ==> draw * spread < spread
  {
    assert 0.0 <= draw * spread;
    assert 0.0 <= (1.0 - draw) * spread;
    assert spread - draw * spread == (1.0 - draw) * spread;
    if 0.0 < spread {
      assert 0.0 < (1.0 - draw) * spread;
    }
  }

  /** The cast of a value in [0, bound] lies in [0, bound], and below bound when the value does. */
  lemma TruncateWithin(x: real, bound: int)
    requires 0.0 <= x <= bound as real
    ensures 0 <= Truncate(x) <= bound
    ensures x < bound as real ==> Truncate(x) < bound
  {
  }

  /** The cast fraction of the spread lies between zero and the spread, whichever sign the spread has. */
  lemma CastFraction(min: int, max: int, draw: real)
    requires 0.0 <= draw < 1.0
    ensures min <= max ==> 0 <= Truncate(draw * (max - min) as real) <= max - min
    ensures min < max ==> Truncate(draw * (max - min) as real) < max - min
    ensures max < min ==> max - min < Truncate(draw * (max - min) as real) <= 0
  {
    var x := draw * (max - min) as real;
    if min <= max {
      FractionOf(draw, (max - min) as real);
      TruncateWithin(x, max - min);
    } else {
      FractionOf(draw, (min - max) as real);
      assert x == -(draw * (min - max) as real);
      TruncateWithinNegative(x, min - max);
    }
  }

  /**
    The reward: min plus the cast of a fraction of the spread. With min <= max
    it lies in [min, max] and reaches max only when min == max; with the bounds
    written the wrong way round it lies in (max, min].
   */
  function Reward(min: int, max: int, draw: real): (r: int)
    requires 0.0 <= draw < 1.0
    ensures min <= max ==> min <= r <= max
    ensures min < max ==> r < max
    ensures min == max ==> r == min
    ensures max < min ==> max < r <= min
  {
    CastFraction(min, max, draw);
    min + Truncate(draw * (max - min) as real)
  }

  /** The cast of a value in (-bound, 0] lies in (-bound, 0]. */
  lemma TruncateWithinNegative(x: real, bound: int)
    requires -(bound as real) < x <= 0.0
    ensures -bound < Truncate(x) <= 0
  {
  }

  /**
    The standing change: min plus a fraction of the spread. With min <= max it
    lies in [min, max] and stays below max unless the range is a single value.
   */
  function DeltaStanding(min: real, max: real, draw: real): (r: real)
    requires 0.0 <= draw < 1.0
    ensures min <= max ==> min <= r <= max
    ensures min < max ==> r < max
  {
    var spread := max - min;
    assert min <= max ==> 0.0 <= draw * spread <= spread && (min < max ==> draw * spread < spread) by {
      if min <= max {
        FractionOf(draw, spread);
      }
    }
    min + draw * spread
  }

  /** A standing the agent's faction holds against a group a mission may target. */
  predicate IsBad(s: Standing) {
    s.name != "Player" && s.name != "Entities" && s.value < 0.0
  }

  /** The names of the bad standings, in list order. */
  function BadStandings(raw: seq<Standing>): seq<string>
    decreases |raw|
  {
    if raw == [] then []
    else
      var last := raw[|raw| - 1];
      BadStandings(raw[..|raw| - 1]) + (if IsBad(last) then [last.name] else [])
  }

  /** A name is listed exactly when some standing with that name is bad; the list is no longer than the standings. */
  lemma {:induction false} BadStandingsMembers(raw: seq<Standing>)
    ensures |BadStandings(raw)| <= |raw|
    ensures forall x :: x in BadStandings(raw) <==> exists i :: 0 <= i < |raw| && IsBad(raw[i]) && raw[i].name == x
    decreases |raw|
  {
    if raw != [] {
      var n := |raw| - 1;
      BadStandingsMembers(raw[..n]);
      assert forall i :: 0 <= i < n ==> raw[..n][i] == raw[i];
      forall x | exists i :: 0 <= i < |raw| && IsBad(raw[i]) && raw[i].name == x
        ensures x in BadStandings(raw)
      {
        var i :| 0 <= i < |raw| && IsBad(raw[i]) && raw[i].name == x;
        if i < n {
          assert raw[..n][i] == raw[i];
        }
      }
    }
  }

  /** The system list a mission of type `t` searches: the station list or the ship list. */
  function TargetList(members: seq<Entity>, t: MissionType): seq<Entity> {
    if t == DestroyStation then StationList(members) else ShipList(members)
  }

  /** An object a mission of type `t` against `group` may pick as its target. */
  predicate IsTarget(e: Entity, group: string, t: MissionType) {
    (if t == DestroyStation then e.kind.Station? else e.kind.Ship?) && e.faction == group && e.state == Alive
  }

  /** The members of one list that fly for `group` and are alive, in list order. */
  function Eligible(list: seq<Entity>, group: string): seq<Entity>
    decreases |list|
  {
    if list == [] then []
    else
      var last := list[|list| - 1];
      Eligible(list[..|list| - 1], group) + (if last.faction == group && last.state == Alive then [last] else [])
  }

  /** The options: system by system, the eligible members of each system's list. */
  function Candidates(lists: seq<seq<Entity>>, group: string, t: MissionType): seq<Entity>
    decreases |lists|
  {
    if lists == [] then []
    else Candidates(lists[..|lists| - 1], group, t) + Eligible(TargetList(lists[|lists| - 1], t), group)
  }

  /** The options of the first a + 1 systems extend those of the first a by system a's. */
  lemma CandidatesSnoc(lists: seq<seq<Entity>>, a: nat, group: string, t: MissionType)
    requires a < |lists|
    ensures Candidates(lists[..a + 1], group, t) == Candidates(lists[..a], group, t) + Eligible(TargetList(lists[a], t), group)
  {
    assert lists[..a + 1][..a] == lists[..a];
  }

  lemma {:induction false} EligibleMembers(list: seq<Entity>, group: string)
    ensures forall e :: e in Eligible(list, group) <==> e in list && e.faction == group && e.state == Alive
    decreases |list|
  {
    if list != [] {
      var n := |list| - 1;
      EligibleMembers(list[..n], group);
      assert list == list[..n] + [list[n]];
    }
  }

  lemma TargetListMembers(members: seq<Entity>, t: MissionType)
    ensures forall e :: e in TargetList(members, t) <==> e in members && (if t == DestroyStation then e.kind.Station? else e.kind.Ship?)
  {
    if t == DestroyStation {
      FilterMembers(members, (e: Entity) => e.kind.Station?);
    } else {
      FilterMembers(members, (e: Entity) => e.kind.Ship?);
    }
  }

  /** `e` is a member of one of the systems' lists. */
  predicate InSome(lists: seq<seq<Entity>>, e: Entity) {
    exists i :: 0 <= i < |lists| && e in lists[i]
  }

  lemma InSomeSnoc(lists: seq<seq<Entity>>, e: Entity)
    requires |lists| > 0
    ensures InSome(lists, e) <==> InSome(lists[..|lists| - 1], e) || e in lists[|lists| - 1]
  {
    var n := |lists| - 1;
    if InSome(lists, e) && e !in lists[n] {
      var i :| 0 <= i < |lists| && e in lists[i];
      assert e in lists[..n][i];
    }
    if InSome(lists[..n], e) {
      var i :| 0 <= i < n && e in lists[..n][i];
      assert e in lists[i];
    }
  }

  /** An object is an option exactly when it is a member of some system and a possible target. */
  lemma {:induction false} CandidatesMembers(lists: seq<seq<Entity>>, group: string, t: MissionType)
    ensures forall e :: e in Candidates(lists, group, t) <==> InSome(lists, e) && IsTarget(e, group, t)
    decreases |lists|
  {
    if lists != [] {
      var n := |lists| - 1;
      CandidatesMembers(lists[..n], group, t);
      EligibleMembers(TargetList(lists[n], t), group);
      TargetListMembers(lists[n], t);
      forall e ensures InSome(lists, e) <==> InSome(lists[..n], e) || e in lists[n] {
        InSomeSnoc(lists, e);
      }
    }
  }

  /** `String.replace`: every occurrence of `pat`, scanning left to right without overlap, replaced by `rep`. */
  function ReplaceAll(s: string, pat: string, rep: string): (r: string)
    requires |pat| > 0
    ensures |rep| == |pat| ==> |r| == |s|
    ensures |s| < |pat| ==> r == s
    decreases |s|
  {
    if |s| < |pat| then s
    else if s[..|pat|] == pat then rep + ReplaceAll(s[|pat|..], pat, rep)
    else [s[0]] + ReplaceAll(s[1..], pat, rep)
  }

  /** `pat` occurs in `s` at position i. */
  predicate OccursAt(s: string, pat: string, i: nat) {
    i + |pat| <= |s| && s[i..i + |pat|] == pat
  }

  /** A briefing without the placeholder is left as it is. */
  lemma {:induction false} ReplaceAbsent(s: string, pat: string, rep: string)
    requires |pat| > 0 && forall i :: 0 <= i <= |s| ==> !OccursAt(s, pat, i)
    ensures ReplaceAll(s, pat, rep) == s
    decreases |s|
  {
    if |s| >= |pat| {
      assert !OccursAt(s, pat, 0);
      assert s[0..|pat|] == s[..|pat|];
      forall i | 0 <= i <= |s[1..]| ensures !OccursAt(s[1..], pat, i) {
        assert !OccursAt(s, pat, i + 1);
        if i + |pat| <= |s[1..]| {
          assert s[1..][i..i + |pat|] == s[i + 1..i + 1 + |pat|];
        }
      }
      ReplaceAbsent(s[1..], pat, rep);
      assert s == [s[0]] + s[1..];
    }
  }

  /** An occurrence in the tail of a text is an occurrence in the text one position further on. */
  lemma OccursInTail(s: string, pat: string, i: nat)
    requires |s| > 0
    ensures OccursAt(s[1..], pat, i) <==> OccursAt(s, pat, i + 1)
  {
    if i + |pat| <= |s[1..]| {
      assert s[1..][i..i + |pat|] == s[i + 1..i + 1 + |pat|];
    }
  }

  /** No occurrence of `pat` in `s` starts before position n. */
  predicate NoOccurrenceBefore(s: string, pat: string, n: nat) {
    forall i :: 0 <= i < n ==> !OccursAt(s, pat, i)
  }

  /**
    The first occurrence of the placeholder becomes the replacement: everything before
    it is kept as it is, and the search goes on after it.
   */
  lemma {:induction false} ReplaceAtFirstOccurrence(a: string, b: string, pat: string, rep: string)
    requires |pat| > 0 && NoOccurrenceBefore(a + pat + b, pat, |a|)
    ensures ReplaceAll(a + pat + b, pat, rep) == a + rep + ReplaceAll(b, pat, rep)
    decreases |a|
  {
    var s := a + pat + b;
    var r := ReplaceAll(b, pat, rep);
    if a == [] {
      assert s == pat + b;
      assert s[..|pat|] == pat && s[|pat|..] == b;
      assert a + rep + r == rep + r;
    } else {
      var tail := a[1..] + pat + b;
      assert s[1..] == tail;
      assert ReplaceAll(s, pat, rep) == [a[0]] + ReplaceAll(tail, pat, rep) by {
        assert !OccursAt(s, pat, 0);
        assert s[0..|pat|] == s[..|pat|];
      }
      assert NoOccurrenceBefore(tail, pat, |a[1..]|) by {
        forall i | 0 <= i < |a[1..]| ensures !OccursAt(tail, pat, i) {
          OccursInTail(s, pat, i);
        }
      }
      ReplaceAtFirstOccurrence(a[1..], b, pat, rep);
      assert [a[0]] + (a[1..] + rep + r) == a + rep + r by {
        assert a == [a[0]] + a[1..];
      }
    }
  }

  /** A text without '<' has no placeholder at any position before its end, even with a placeholder after it. */
  lemma NoPlaceholderBefore(a: string, b: string, pat: string)
    requires '<' !in a && |pat| > 0 && pat[0] == '<'
    ensures NoOccurrenceBefore(a + pat + b, pat, |a|)
  {
    forall i | 0 <= i < |a| ensures !OccursAt(a + pat + b, pat, i) {
      var s := a + pat + b;
      assert s[i] == a[i];
    }
  }

  /** The briefing with the target's details filled in, in the order the build replaces them. */
  function Briefed(briefing: string, t: MissionType, target: Entity): string {
    if t == DestroyStation then
      ReplaceAll(ReplaceAll(briefing, "<TARGET>", target.name), "<LOCATION>", target.system)
    else
      ReplaceAll(ReplaceAll(ReplaceAll(ReplaceAll(briefing, "<NAME>", target.pilot), "<SHIP>", target.hull),
                            "<SHIPNAME>", target.name), "<LOCATION>", target.system)
  }

  /** Every placeholder opens with '<', so a text without that character holds none of them. */
  lemma NoPlaceholder(s: string, pat: string)
    requires '<' !in s && |pat| > 0 && pat[0] == '<'
    ensures forall i :: 0 <= i <= |s| ==> !OccursAt(s, pat, i)
  {
  }

  /** A briefing with no '<' in it holds no placeholder, and every build leaves it as it is. */
  lemma BriefedWithoutPlaceholders(briefing: string, t: MissionType, target: Entity)
    requires '<' !in briefing
    ensures Briefed(briefing, t, target) == briefing
  {
    NoPlaceholder(briefing, "<LOCATION>");
    ReplaceAbsent(briefing, "<LOCATION>", target.system);
    if t == DestroyStation {
      NoPlaceholder(briefing, "<TARGET>");
      ReplaceAbsent(briefing, "<TARGET>", target.name);
    } else {
      NoPlaceholder(briefing, "<NAME>");
      ReplaceAbsent(briefing, "<NAME>", target.pilot);
      NoPlaceholder(briefing, "<SHIP>");
      ReplaceAbsent(briefing, "<SHIP>", target.hull);
      NoPlaceholder(briefing, "<SHIPNAME>");
      ReplaceAbsent(briefing, "<SHIPNAME>", target.name);
    }
  }

  /**
    A station briefing with one "<TARGET>" and no other '<' gets the station's name in
    its place, when the name holds no '<' either.
   */
  lemma BriefedTargetFilled(a: string, b: string, target: Entity)
    requires '<' !in a && '<' !in b && '<' !in target.name
    ensures Briefed(a + "<TARGET>" + b, DestroyStation, target) == a + target.name + b
  {
    NoPlaceholderBefore(a, b, "<TARGET>");
    ReplaceAtFirstOccurrence(a, b, "<TARGET>", target.name);
    NoPlaceholder(b, "<TARGET>");
    ReplaceAbsent(b, "<TARGET>", target.name);
    var filled := a + target.name + b;
    assert '<' !in filled;
    NoPlaceholder(filled, "<LOCATION>");
    ReplaceAbsent(filled, "<LOCATION>", target.system);
  }

  /**
    What a build leaves in a mission: its type, reward, standing change, briefing (None
    for the null a pre-abort leaves) and targets, and whether it pre-aborted.
   */
  datatype Built = Built(missionType: Option<MissionType>, reward: int, delta: real, briefing: Option<string>,
                         targets: seq<Entity>, preAborted: bool)

  /** preAbort: no reward, no standing change, no briefing; the type and the targets stay as they were. */
  function PreAborted(t: Option<MissionType>): Built {
    Built(t, 0, 0.0, None, [], true)
  }

  /** The target the build settles on for type `t`, if the group and option draws succeed. */
  function Target(standings: seq<Standing>, lists: seq<seq<Entity>>, t: MissionType, d: Draws): Option<Entity> {
    var bad := BadStandings(standings);
    if |bad| == 0 then None
    else
      var group := bad[NextInt(|bad|, d.group)];
      var options := Candidates(lists, group, t);
      if |options| == 0 then None
      else Some(options[NextInt(|options|, d.target)])
  }

  /** build: the whole outcome of building a mission from a record. */
  function Build(pick: MissionRecord, standings: seq<Standing>, lists: seq<seq<Entity>>, d: Draws): Built
    requires DrawsFit(d)
  {
    var t := TypeOf(pick.kind);
    if t.None? then PreAborted(t)
    else match Target(standings, lists, t.value, d)
      case None => PreAborted(t)
      case Some(target) =>
        Built(t, Reward(pick.cashMin, pick.cashMax, d.cash), DeltaStanding(pick.deltaMin, pick.deltaMax, d.delta),
              Some(Briefed(pick.briefing, t.value, target)), [target], false)
  }

  /** A build of a record of type `t`, by the target search's result. */
  lemma BuildTyped(pick: MissionRecord, standings: seq<Standing>, lists: seq<seq<Entity>>, d: Draws, t: MissionType)
    requires DrawsFit(d) && TypeOf(pick.kind) == Some(t)
    ensures Target(standings, lists, t, d).None? ==> Build(pick, standings, lists, d) == PreAborted(Some(t))
    ensures Target(standings, lists, t, d).Some? ==>
      var e := Target(standings, lists, t, d).value;
      Build(pick, standings, lists, d)
        == Built(Some(t), Reward(pick.cashMin, pick.cashMax, d.cash), DeltaStanding(pick.deltaMin, pick.deltaMax, d.delta),
                 Some(Briefed(pick.briefing, t, e)), [e], false)
  {
  }

  /**
    A build pre-aborts exactly when the type names neither mission type, no standing is
    bad, or the group drawn has no possible target; a pre-aborted build carries no
    reward, no standing change, no briefing and no target.
   */
  lemma BuildPreAborts(pick: MissionRecord, standings: seq<Standing>, lists: seq<seq<Entity>>, d: Draws)
    requires DrawsFit(d)
    ensures var b := Build(pick, standings, lists, d);
      var bad := BadStandings(standings);
      b.preAborted <==>
        (|| TypeOf(pick.kind).None?
         || |bad| == 0
         || |Candidates(lists, bad[NextInt(|bad|, d.group)], TypeOf(pick.kind).value)| == 0)
    ensures var b := Build(pick, standings, lists, d);
      b.preAborted ==> b.reward == 0 && b.delta == 0.0 && b.briefing.None? && b.targets == []
  {
  }

  /**
    A build that goes through picks exactly one target: a member of some system, alive,
    of the mission's kind, flying for a group the agent's faction holds a bad standing
    against; and the reward lies in the record's cash range.
   */
  lemma BuildTarget(pick: MissionRecord, standings: seq<Standing>, lists: seq<seq<Entity>>, d: Draws)
    requires DrawsFit(d)
    requires !Build(pick, standings, lists, d).preAborted
    ensures var b := Build(pick, standings, lists, d);
      && b.missionType.Some? && |b.targets| == 1
      && InSome(lists, b.targets[0])
      && b.targets[0].state == Alive
      && (if b.missionType.value == DestroyStation then b.targets[0].kind.Station? else b.targets[0].kind.Ship?)
      && (exists k :: 0 <= k < |standings| && IsBad(standings[k]) && standings[k].name == b.targets[0].faction)
    ensures pick.cashMin <= pick.cashMax ==> pick.cashMin <= Build(pick, standings, lists, d).reward <= pick.cashMax
  {
    var t := TypeOf(pick.kind).value;
    var bad := BadStandings(standings);
    var group := bad[NextInt(|bad|, d.group)];
    var options := Candidates(lists, group, t);
    var target := options[NextInt(|options|, d.target)];
    assert Build(pick, standings, lists, d).targets == [target];
    CandidatesMembers(lists, group, t);
    assert target in options;
    BadStandingsMembers(standings);
    assert group in bad;
  }

  /** How a tick judges the targets: still waiting, done, or revoked because someone else got a bounty. */
  datatype Verdict = Pending | Done | Revoked

  /** checkDestroyStation's answer: no target is alive (so an empty list is done). */
  predicate AllDown(now: seq<Entity>) {
    forall i :: 0 <= i < |now| ==> now[i].state != Alive
  }

  /**
    checkBountyHunt's scan: the first target that is alive leaves the hunt pending, the
    first dead one someone other than the player killed revokes it, and the hunt is done
    when every target is dead by the player's hand.
   */
  function BountyVerdict(now: seq<Entity>): Verdict
    decreases |now|
  {
    if now == [] then Done
    else if now[0].state == Alive then Pending
    else if now[0].lastBlow != "Player" then Revoked
    else BountyVerdict(now[1..])
  }

  /** A target that is down, and by the player's hand. */
  predicate KilledByPlayer(e: Entity) {
    e.state != Alive && e.lastBlow == "Player"
  }

  /** The hunt is done exactly when every target is dead and the player dealt every last blow. */
  lemma {:induction false} BountyDoneIff(now: seq<Entity>)
    ensures BountyVerdict(now) == Done <==> forall i :: 0 <= i < |now| ==> KilledByPlayer(now[i])
    decreases |now|
  {
    if now != [] {
      BountyDoneIff(now[1..]);
      assert forall i :: 1 <= i < |now| ==> now[i] == now[1..][i - 1];
    }
  }

  /** Target k is down by someone else's hand, and every target before it was killed by the player. */
  predicate RevokedAt(now: seq<Entity>, k: int) {
    && 0 <= k < |now| && now[k].state != Alive && now[k].lastBlow != "Player"
    && forall j :: 0 <= j < k ==> KilledByPlayer(now[j])
  }

  lemma RevokedAtTail(now: seq<Entity>, k: int)
    requires |now| > 0 && KilledByPlayer(now[0]) && 0 < k
    ensures RevokedAt(now, k) <==> RevokedAt(now[1..], k - 1)
  {
    assert forall j :: 0 < j < |now| ==> now[1..][j - 1] == now[j];
  }

  /**
    The hunt is revoked exactly when, scanning in order, a target someone else killed
    comes before any target that is still alive.
   */
  lemma {:induction false} BountyRevokedIff(now: seq<Entity>)
    ensures BountyVerdict(now) == Revoked <==> exists k :: RevokedAt(now, k)
    decreases |now|
  {
    if now != [] {
      var tail := now[1..];
      if KilledByPlayer(now[0]) {
        BountyRevokedIff(tail);
        assert !RevokedAt(now, 0);
        if BountyVerdict(now) == Revoked {
          var k :| RevokedAt(tail, k);
          RevokedAtTail(now, k + 1);
        }
        if exists k :: RevokedAt(now, k) {
          var k :| RevokedAt(now, k);
          RevokedAtTail(now, k);
        }
      } else if now[0].state != Alive {
        assert RevokedAt(now, 0);
      } else {
        assert forall k :: RevokedAt(now, k) ==> k == 0;
      }
    }
  }

  /** missionComplete together with the abort checkBountyHunt may do: what one tick decides. */
  function TickVerdict(t: Option<MissionType>, now: seq<Entity>): Verdict {
    match t
    case None => Done
    case Some(DestroyStation) => if AllDown(now) then Done else Pending
    case Some(BountyHunt) => BountyVerdict(now)
  }

  /** Only a bounty hunt can be revoked; a station mission is done exactly when no target is alive. */
  lemma TickVerdictFacts(t: Option<MissionType>, now: seq<Entity>)
    ensures TickVerdict(t, now) == Revoked ==> t == Some(BountyHunt)
    ensures t == Some(DestroyStation) ==> (TickVerdict(t, now) == Done <==> forall i :: 0 <= i < |now| ==> now[i].state != Alive)
    ensures t.None? ==> TickVerdict(t, now) == Done
  {
  }

  /**
    A pre-aborted mission has no targets (or no type), so the next tick finds it done: it
    would complete with the zero reward and the zero standing change the pre-abort left.
   */
  lemma PreAbortedIsDone(b: Built)
    requires b.preAborted && b.targets == []
    ensures TickVerdict(b.missionType, b.targets) == Done
  {
  }
}
