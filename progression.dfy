/** The progression rule: how experience turns into levels. */
module Progression {

  /** Experience needed to climb one level from `level`. It is positive on
      every level a character can hold, which is what makes the level-up
      loop stop. */
  function Threshold(level: int): (t: int)
    ensures level >= 1 ==> t >= 100
    ensures level <= 0 ==> t <= 0
  {
    100 * level
  }

  /** Experience paid to climb from level `lo` to level `hi`: the sum of
      Threshold(l) for lo <= l < hi (zero when hi <= lo). */
  function Consumed(lo: int, hi: int): int
    decreases hi - lo
  {
    if hi <= lo then 0 else Consumed(lo, hi - 1) + Threshold(hi - 1)
  }

  /** Every level from `level` up to (not including) `upTo` was paid for in
      full out of what was left of the pool `xp` on reaching it. */
  ghost predicate PaidThrough(level: int, xp: int, upTo: int) {
    forall l :: level <= l < upTo ==> xp - Consumed(level, l) >= Threshold(l)
  }

  /** `(newLevel, newXp)` is where the level-up loop started at level
      `level` with experience pool `xp` comes to rest: it never goes down a
      level, every level it passed was paid for in full, what it paid is
      gone from the pool, and what is left is below the threshold of the
      level reached. */
  ghost predicate Settles(level: int, xp: int, newLevel: int, newXp: int) {
    && level <= newLevel
    && newXp == xp - Consumed(level, newLevel)
    && newXp < Threshold(newLevel)
    && PaidThrough(level, xp, newLevel)
  }

  /** Paying the threshold of level `upTo` out of what is left extends the
      paid stretch by one level. */
  lemma PayOneLevel(level: int, xp: int, upTo: int)
    requires level <= upTo
    requires PaidThrough(level, xp, upTo)
    requires xp - Consumed(level, upTo) >= Threshold(upTo)
    ensures PaidThrough(level, xp, upTo + 1)
    ensures Consumed(level, upTo + 1) == Consumed(level, upTo) + Threshold(upTo)
  {
  }

  /** The level-up loop: while the pool covers the threshold of the current
      level, pay it and go up one level, counting the climbs. It stops for
      every starting level: on levels below 1 the threshold is not positive
      and the level only climbs, and from level 1 on the pool shrinks by at
      least 100 each time. */
  method LevelUp(level: int, xp: int) returns (newLevel: int, newXp: int, gained: int)
    ensures Settles(level, xp, newLevel, newXp)
    ensures gained == newLevel - level
  {
    newLevel, newXp, gained := level, xp, 0;
    while newXp >= Threshold(newLevel)
      invariant level <= newLevel
      invariant newXp == xp - Consumed(level, newLevel)
      invariant gained == newLevel - level
      invariant PaidThrough(level, xp, newLevel)
      decreases if newLevel < 1 then 1 - newLevel else 0, newXp
    {
      PayOneLevel(level, xp, newLevel);
      newXp := newXp - Threshold(newLevel);
      newLevel := newLevel + 1;
      gained := gained + 1;
    }
  }

  /** The resting point is unique: the same level and pool always give the
      same new level and experience. */
  lemma SettlesUnique(level: int, xp: int, l1: int, e1: int, l2: int, e2: int)
    requires Settles(level, xp, l1, e1)
    requires Settles(level, xp, l2, e2)
    ensures l1 == l2 && e1 == e2
  {
  }

  /** From a level of at least 1, the experience left is never negative
      when the pool was not, and a negative pool buys no level at all. */
  lemma SettlesBounds(level: int, xp: int, newLevel: int, newXp: int)
    requires level >= 1
    requires Settles(level, xp, newLevel, newXp)
    ensures 0 <= newXp <==> 0 <= xp
    ensures xp < 0 ==> newLevel == level && newXp == xp
    ensures newXp < 100 * newLevel
  {
    if newLevel > level {
      assert xp - Consumed(level, level) >= Threshold(level);
      assert xp - Consumed(level, newLevel - 1) >= Threshold(newLevel - 1);
    }
  }

  /** A pool already below the threshold of its level climbs nothing:
      in particular a zero reward on a settled character changes nothing. */
  lemma SettledStaysPut(level: int, xp: int, newLevel: int, newXp: int)
    requires xp < Threshold(level)
    requires Settles(level, xp, newLevel, newXp)
    ensures newLevel == level && newXp == xp
  {
  }

  /** The experience needed to climb from `lo` to `hi` in closed form:
      100 * (lo + ... + (hi - 1)). */
  lemma {:induction false} ConsumedClosedForm(lo: int, hi: int)
    requires lo <= hi
    ensures Consumed(lo, hi) == 50 * (hi - lo) * (lo + hi - 1)
    decreases hi - lo
  {
    if lo < hi {
      ConsumedClosedForm(lo, hi - 1);
      var n := hi - lo;
      assert 50 * (n - 1) * (lo + hi - 2) + 100 * (hi - 1) == 50 * n * (lo + hi - 1);
    }
  }

  /** Experience is conserved by the rule: the pool equals what is left
      plus 100 times the sum of every level passed through. */
  lemma SettlesConserves(level: int, xp: int, newLevel: int, newXp: int)
    requires Settles(level, xp, newLevel, newXp)
    ensures xp == newXp + 50 * (newLevel - level) * (level + newLevel - 1)
  {
    ConsumedClosedForm(level, newLevel);
  }

  /** Level 1 with 90 experience and a reward of 50: one level up, 40 left. */
  method ExampleOneLevel() returns (newLevel: int, newXp: int, gained: int)
    ensures newLevel == 2 && newXp == 40 && gained == 1
  {
    newLevel, newXp, gained := LevelUp(1, 90 + 50);
    assert Consumed(1, 2) == 100;
    assert Settles(1, 140, 2, 40);
    SettlesUnique(1, 140, newLevel, newXp, 2, 40);
  }

  /** Level 1 with no experience and a reward of 250: level 2 costs 100,
      level 3 would cost 200 of the 150 left, so it stops at level 2. */
  method ExampleStopsShort() returns (newLevel: int, newXp: int, gained: int)
    ensures newLevel == 2 && newXp == 150 && gained == 1
  {
    newLevel, newXp, gained := LevelUp(1, 0 + 250);
    assert Consumed(1, 2) == 100;
    assert Settles(1, 250, 2, 150);
    SettlesUnique(1, 250, newLevel, newXp, 2, 150);
  }
}
