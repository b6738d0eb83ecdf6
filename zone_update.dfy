/**
  What one per-tick pass over a system's member list does. Each visited member is
  replaced by its own update (`step`, the opaque `Entity.periodicUpdate`) and is removed
  when that update left it DEAD. `Pass` is the loop as the source writes it: the index
  still advances after a removal, so the member that slides into the freed slot is neither
  updated nor checked. `TickAll` is the pass that visits every member exactly once.
 */
module ZoneUpdate {
  import opened Seqs
  import opened Entities

  /**
    The as-written pass. Because a removal makes the loop skip the next member, at
    most one member in two can be removed in a single pass.
   */
  function Pass(s: seq<Entity>, step: Entity -> Entity): (r: seq<Entity>)
    ensures |s| / 2 <= |r| <= |s|
    decreases |s|
  {
    if s == [] then []
    else if step(s[0]).state == Dead then
      if |s| == 1 then [] else [s[1]] + Pass(s[2..], step)
    else [step(s[0])] + Pass(s[1..], step)
  }

  /** One iteration of the as-written loop at index `a`, when the update leaves the member alive. */
  lemma PassStepLive(c: seq<Entity>, a: nat, step: Entity -> Entity)
    requires a < |c| && step(c[a]).state != Dead
    ensures var u := c[a := step(c[a])];
      c[..a] + Pass(c[a..], step) == u[..a + 1] + Pass(u[a + 1..], step)
  {
    var u := c[a := step(c[a])];
    assert c[a..][1..] == u[a + 1..];
    assert u[..a + 1] == c[..a] + [step(c[a])];
  }

  /** One iteration of the as-written loop at index `a`, when the update leaves the member DEAD. */
  lemma PassStepDead(c: seq<Entity>, a: nat, step: Entity -> Entity)
    requires a < |c| && step(c[a]).state == Dead
    ensures var u := c[a := step(c[a])];
      var r := u[..a] + u[a + 1..];
      && (a < |r| ==> c[..a] + Pass(c[a..], step) == r[..a + 1] + Pass(r[a + 1..], step))
      && (a == |r| ==> c[..a] + Pass(c[a..], step) == r)
  {
    var u := c[a := step(c[a])];
    var r := u[..a] + u[a + 1..];
    if a < |r| {
      assert c[a..][1..][1..] == c[a + 2..] == r[a + 1..];
      assert r[..a + 1] == c[..a] + [c[a + 1]];
    } else {
      assert r == c[..a];
    }
  }

  /** What the pass does to a member. */
  datatype Fate = Updated | Removed | Skipped

  /** The fate of each member in the as-written pass. */
  function Fates(s: seq<Entity>, step: Entity -> Entity): (f: seq<Fate>)
    ensures |f| == |s|
    decreases |s|
  {
    if s == [] then []
    else if step(s[0]).state == Dead then
      if |s| == 1 then [Removed] else [Removed, Skipped] + Fates(s[2..], step)
    else [Updated] + Fates(s[1..], step)
  }

  /** The members that stay, in their original order: updated ones as updated, skipped ones untouched. */
  function Survivors(s: seq<Entity>, f: seq<Fate>, step: Entity -> Entity): seq<Entity>
    requires |f| == |s|
    decreases |s|
  {
    if s == [] then []
    else
      var head := match f[0] case Removed => [] case Updated => [step(s[0])] case Skipped => [s[0]];
      head + Survivors(s[1..], f[1..], step)
  }

  /** The survivors are all members but the removed ones. */
  lemma {:induction false} SurvivorsLength(s: seq<Entity>, f: seq<Fate>, step: Entity -> Entity)
    requires |f| == |s|
    ensures |Survivors(s, f, step)| == |s| - Count(f, (x: Fate) => x == Removed)
    decreases |s|
  {
    if s != [] {
      SurvivorsLength(s[1..], f[1..], step);
    }
  }

  /**
    The exact behaviour of the as-written pass: a member is skipped if and only if the
    member before it was removed; every other member is updated, and it is removed if
    and only if its own update left it DEAD.
   */
  lemma {:induction false} FatesCharacterised(s: seq<Entity>, step: Entity -> Entity)
    ensures var f := Fates(s, step);
      forall i :: 0 <= i < |s| ==> (f[i] == Skipped <==> i > 0 && f[i - 1] == Removed)
    ensures var f := Fates(s, step);
      forall i :: 0 <= i < |s| && f[i] != Skipped ==> (f[i] == Removed <==> step(s[i]).state == Dead)
    decreases |s|
  {
    if s != [] {
      var f := Fates(s, step);
      if step(s[0]).state == Dead && |s| > 1 {
        var r := Fates(s[2..], step);
        FatesCharacterised(s[2..], step);
        assert f == [Removed, Skipped] + r;
        forall i | 2 <= i < |s|
          ensures (f[i] == Skipped <==> f[i - 1] == Removed)
          ensures f[i] != Skipped ==> (f[i] == Removed <==> step(s[i]).state == Dead)
        {
          assert f[i] == r[i - 2] && s[i] == s[2..][i - 2];
          if i > 2 { assert f[i - 1] == r[i - 3]; }
        }
      } else if step(s[0]).state != Dead {
        var r := Fates(s[1..], step);
        FatesCharacterised(s[1..], step);
        assert f == [Updated] + r;
        forall i | 1 <= i < |s|
          ensures (f[i] == Skipped <==> f[i - 1] == Removed)
          ensures f[i] != Skipped ==> (f[i] == Removed <==> step(s[i]).state == Dead)
        {
          assert f[i] == r[i - 1] && s[i] == s[1..][i - 1];
          if i > 1 { assert f[i - 1] == r[i - 2]; }
        }
      }
    }
  }

  /** The as-written pass keeps exactly the survivors of its fates, in order. */
  lemma {:induction false} PassIsSurvivors(s: seq<Entity>, step: Entity -> Entity)
    ensures Pass(s, step) == Survivors(s, Fates(s, step), step)
    decreases |s|
  {
    if s != [] {
      if step(s[0]).state == Dead && |s| > 1 {
        PassIsSurvivors(s[2..], step);
        var f := Fates(s, step);
        assert f[1..][1..] == Fates(s[2..], step);
        assert s[1..][1..] == s[2..];
      } else if step(s[0]).state != Dead {
        PassIsSurvivors(s[1..], step);
      }
    }
  }

  /**
    The as-written pass removes only members that are DEAD after their update, and the
    list shrinks by exactly the number of removals.
   */
  lemma PassRemovesOnlyDead(s: seq<Entity>, step: Entity -> Entity)
    ensures var f := Fates(s, step);
      && (forall i :: 0 <= i < |s| && f[i] == Removed ==> step(s[i]).state == Dead)
      && |Pass(s, step)| == |s| - Count(f, (x: Fate) => x == Removed)
  {
    FatesCharacterised(s, step);
    PassIsSurvivors(s, step);
    SurvivorsLength(s, Fates(s, step), step);
  }

  /** The pass that visits every member exactly once. */
  function TickAll(s: seq<Entity>, step: Entity -> Entity): seq<Entity>
    decreases |s|
  {
    if s == [] then []
    else (if step(s[0]).state == Dead then [] else [step(s[0])]) + TickAll(s[1..], step)
  }

  /** One iteration of the corrected loop at index `a`: a DEAD member is removed and the index stays. */
  lemma TickAllStep(c: seq<Entity>, a: nat, step: Entity -> Entity)
    requires a < |c|
    ensures step(c[a]).state == Dead ==>
      var r := c[..a] + c[a + 1..];
      c[..a] + TickAll(c[a..], step) == r[..a] + TickAll(r[a..], step)
    ensures step(c[a]).state != Dead ==>
      var u := c[a := step(c[a])];
      c[..a] + TickAll(c[a..], step) == u[..a + 1] + TickAll(u[a + 1..], step)
  {
    var r := c[..a] + c[a + 1..];
    var u := c[a := step(c[a])];
    assert r[..a] == c[..a] && r[a..] == c[a..][1..];
    assert c[a..][1..] == u[a + 1..];
    assert u[..a + 1] == c[..a] + [step(c[a])];
  }

  /** The fates of a pass that visits everyone: removed when DEAD after the update, else updated. */
  function Visits(s: seq<Entity>, step: Entity -> Entity): (f: seq<Fate>)
    ensures |f| == |s|
    ensures forall i :: 0 <= i < |s| ==> f[i] == if step(s[i]).state == Dead then Removed else Updated
  {
    seq(|s|, i requires 0 <= i < |s| => if step(s[i]).state == Dead then Removed else Updated)
  }

  /**
    The corrected pass updates every member once, drops exactly those its update left
    DEAD and keeps the others in order.
   */
  lemma {:induction false} TickAllIsSurvivors(s: seq<Entity>, step: Entity -> Entity)
    ensures TickAll(s, step) == Survivors(s, Visits(s, step), step)
    ensures |TickAll(s, step)| == |s| - Count(s, (e: Entity) => step(e).state == Dead)
    decreases |s|
  {
    if s != [] {
      TickAllIsSurvivors(s[1..], step);
      assert Visits(s, step)[1..] == Visits(s[1..], step);
    }
  }

  /** When no member but possibly the last dies, the as-written pass agrees with the corrected one. */
  lemma {:induction false} PassAgreesWithoutEarlyDeaths(s: seq<Entity>, step: Entity -> Entity)
    requires forall i :: 0 <= i < |s| - 1 ==> step(s[i]).state != Dead
    ensures Pass(s, step) == TickAll(s, step)
    decreases |s|
  {
    if |s| > 1 {
      assert forall i :: 0 <= i < |s[1..]| - 1 ==> step(s[1..][i]).state != Dead by {
        forall i | 0 <= i < |s[1..]| - 1 ensures step(s[1..][i]).state != Dead {
          assert s[1..][i] == s[i + 1];
        }
      }
      PassAgreesWithoutEarlyDeaths(s[1..], step);
    }
  }

  /**
    The skip, on two members whose updates both kill them: the as-written pass removes
    the first, never updates the second and keeps it; the corrected pass removes both.
   */
  lemma SkipAfterRemoval(a: Entity, b: Entity)
    requires a.state == Alive && b.state == Alive
    ensures var kill := (e: Entity) => e.(state := Dead);
      && Pass([a, b], kill) == [b]
      && Pass([a, b], kill)[0].state == Alive
      && TickAll([a, b], kill) == []
  {
    var kill := (e: Entity) => e.(state := Dead);
    assert [a, b][2..] == [];
    assert [a, b][1..] == [b];
    assert [b][1..] == [];
    assert TickAll([b], kill) == [];
  }
}
