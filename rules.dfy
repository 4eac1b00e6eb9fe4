/**
  The arithmetic rules of the simulation, separated from the state they act
  on: the level curve, the spawn intervals, obstacle scaling, token drops,
  shop prices, shield-first damage, shield regeneration, the collision test
  and the firing cooldown. Times are in seconds (`real`), intervals in
  milliseconds, fire rates in tenths of a shot per second.
*/
module Rules {

  function Max(a: int, b: int): int { if a >= b then a else b }

  function MaxR(a: real, b: real): real { if a >= b then a else b }

  function MinR(a: real, b: real): real { if a <= b then a else b }

  // ---------------------------------------------------------------------
  // Level curve and spawning

  /** The level reached after `time` seconds of play: one more every 30 seconds. */
  function LevelAt(time: real): (level: int)
    ensures time >= 0.0 ==> level >= 1
    ensures (level - 1) as real * 30.0 <= time < level as real * 30.0
  {
    (time / 30.0).Floor + 1
  }

  /** More play time never lowers the level. */
  lemma LevelAtMonotone(t1: real, t2: real)
    requires t1 <= t2
    ensures LevelAt(t1) <= LevelAt(t2)
  {
    var l1, l2 := LevelAt(t1), LevelAt(t2);
    assert (l1 - 1) as real * 30.0 <= t1 <= t2 < l2 as real * 30.0;
  }

  /** Milliseconds between two target spawns at `level`. */
  function TargetSpawnInterval(level: int): (ms: int)
    ensures ms >= 500
    ensures level >= 0 ==> ms <= 2000
  {
    Max(500, 2000 - level * 100)
  }

  /** Milliseconds between two obstacle spawns at `level`. */
  function ObstacleSpawnInterval(level: int): (ms: int)
    ensures ms >= 1000
    ensures level >= 0 ==> ms <= 3000
  {
    Max(1000, 3000 - level * 150)
  }

  /** Spawning only speeds up as the level rises. */
  lemma SpawnIntervalsShrink(l1: int, l2: int)
    requires l1 <= l2
    ensures TargetSpawnInterval(l2) <= TargetSpawnInterval(l1)
    ensures ObstacleSpawnInterval(l2) <= ObstacleSpawnInterval(l1)
  {
  }

  /** Collision radius of an obstacle spawned at `level`. */
  function ObstacleSize(level: int): int { 20 + level * 2 }

  /** Contact damage of an obstacle spawned at `level`. */
  function ObstacleDamage(level: int): int { 10 + level * 2 }

  /** Speed toward the interior of an obstacle spawned at `level`. */
  function ObstacleSpeed(level: int): int { 100 + level * 20 }

  /** Obstacles spawned later in a session are at least as big, as fast and as harmful. */
  lemma ObstaclesScaleWithLevel(l1: int, l2: int)
    requires 1 <= l1 <= l2
    ensures 0 < ObstacleSize(l1) <= ObstacleSize(l2)
    ensures 0 < ObstacleDamage(l1) <= ObstacleDamage(l2)
    ensures 0 < ObstacleSpeed(l1) <= ObstacleSpeed(l2)
  {
  }

  /** Tokens credited for every kill at `level`. */
  function TokenDrop(level: int): (tokens: int)
    requires level >= 1
    ensures 1 <= tokens <= level
  {
    1 + level / 2
  }

  /** A higher level never pays fewer tokens per kill. */
  lemma TokenDropMonotone(l1: int, l2: int)
    requires 1 <= l1 <= l2
    ensures TokenDrop(l1) <= TokenDrop(l2)
  {
  }

  // ---------------------------------------------------------------------
  // Shop prices. The number of purchases is derived from how far a stat
  // is above its baseline; `/` on a positive divisor rounds down, as the
  // shop's Math.floor does.

  function SpeedUpgradeCost(speed: int, baseSpeed: int): (cost: int)
    ensures cost % 5 == 0
    ensures speed >= baseSpeed ==> cost >= 10
  {
    10 + 5 * ((speed - baseSpeed) / 30)
  }

  function FireRateUpgradeCost(fireRate: int, baseFireRate: int): (cost: int)
    ensures cost % 5 == 0
    ensures fireRate >= baseFireRate ==> cost >= 15
  {
    15 + 5 * ((fireRate - baseFireRate) / 2)
  }

  function HealthUpgradeCost(maxHealth: int): (cost: int)
    ensures cost % 5 == 0
    ensures maxHealth >= 100 ==> cost >= 20
  {
    20 + 5 * ((maxHealth - 100) / 25)
  }

  /** Each purchase raises the price of the same upgrade by exactly 5 tokens. */
  lemma UpgradeCostsRiseByFive(speed: int, baseSpeed: int, fireRate: int, baseFireRate: int, maxHealth: int)
    ensures SpeedUpgradeCost(speed + 30, baseSpeed) == SpeedUpgradeCost(speed, baseSpeed) + 5
    ensures FireRateUpgradeCost(fireRate + 2, baseFireRate) == FireRateUpgradeCost(fireRate, baseFireRate) + 5
    ensures HealthUpgradeCost(maxHealth + 25) == HealthUpgradeCost(maxHealth) + 5
  {
  }

  /** A price never falls while its stat only grows. */
  lemma UpgradeCostsMonotone(s1: int, s2: int, baseSpeed: int, f1: int, f2: int, baseFireRate: int, h1: int, h2: int)
    requires s1 <= s2 && f1 <= f2 && h1 <= h2
    ensures SpeedUpgradeCost(s1, baseSpeed) <= SpeedUpgradeCost(s2, baseSpeed)
    ensures FireRateUpgradeCost(f1, baseFireRate) <= FireRateUpgradeCost(f2, baseFireRate)
    ensures HealthUpgradeCost(h1) <= HealthUpgradeCost(h2)
  {
    QuotientMonotone(s1 - baseSpeed, s2 - baseSpeed, 30);
    QuotientMonotone(f1 - baseFireRate, f2 - baseFireRate, 2);
    QuotientMonotone(h1 - 100, h2 - 100, 25);
  }

  /** Rounding-down division by a positive step keeps the order of its operands. */
  lemma QuotientMonotone(a: int, b: int, k: int)
    requires a <= b && k > 0
    ensures a / k <= b / k
  {
    var q, p := a / k, b / k;
    if q > p {
      ProductNonnegative(k, q - p - 1);
    }
  }

  lemma ProductNonnegative(x: int, y: int)
    requires x >= 0 && y >= 0
    ensures x * y >= 0
  {
  }

  // ---------------------------------------------------------------------
  // Damage and shield regeneration

  datatype Vitals = Vitals(shield: real, health: real)

  /**
    An obstacle hit for `damage`: the shield absorbs first and the excess
    spills to health, neither going below zero. The combined loss is the
    damage, capped by what shield and health had left.
  */
  function AbsorbDamage(v: Vitals, damage: real): (r: Vitals)
    ensures v.shield >= 0.0 && v.health >= 0.0 ==> r.shield >= 0.0 && r.health >= 0.0
    ensures damage >= 0.0 ==> r.shield <= v.shield && r.health <= MaxR(v.health, 0.0)
    ensures v.shield >= 0.0 && v.health >= 0.0 && damage >= 0.0 ==>
      (v.shield - r.shield) + (v.health - r.health) == MinR(damage, v.shield + v.health)
  {
    if v.shield > 0.0 then
      var remaining := MaxR(0.0, damage - v.shield);
      var shield := MaxR(0.0, v.shield - damage);
      if remaining > 0.0 then Vitals(shield, MaxR(0.0, v.health - remaining))
      else Vitals(shield, v.health)
    else
      Vitals(v.shield, MaxR(0.0, v.health - damage))
  }

  /** Damage 30 on shield 20 and health 100 leaves shield 0 and health 90. */
  lemma AbsorbDamageExample()
    ensures AbsorbDamage(Vitals(20.0, 100.0), 30.0) == Vitals(0.0, 90.0)
  {
  }

  /** Several hits in a row, in order. */
  function AbsorbAll(v: Vitals, damages: seq<real>): Vitals
  {
    if damages == [] then v
    else AbsorbDamage(AbsorbAll(v, damages[..|damages| - 1]), damages[|damages| - 1])
  }

  function Sum(xs: seq<real>): real
  {
    if xs == [] then 0.0 else Sum(xs[..|xs| - 1]) + xs[|xs| - 1]
  }

  /**
    However many obstacles hit in a row, shield and health stay non-negative
    and together lose exactly the total damage, capped by what they had.
  */
  lemma {:induction false} AbsorbAllLoss(v: Vitals, damages: seq<real>)
    requires v.shield >= 0.0 && v.health >= 0.0
    requires forall i :: 0 <= i < |damages| ==> damages[i] >= 0.0
    ensures AbsorbAll(v, damages).shield >= 0.0 && AbsorbAll(v, damages).health >= 0.0
    ensures (v.shield + v.health) - (AbsorbAll(v, damages).shield + AbsorbAll(v, damages).health)
            == MinR(Sum(damages), v.shield + v.health)
  {
    if damages != [] {
      var init := damages[..|damages| - 1];
      AbsorbAllLoss(v, init);
    }
  }

  /** Hits never raise the shield or the health. */
  lemma {:induction false} AbsorbAllShrinks(v: Vitals, damages: seq<real>)
    requires v.shield >= 0.0 && v.health >= 0.0
    requires forall i :: 0 <= i < |damages| ==> damages[i] >= 0.0
    ensures AbsorbAll(v, damages).shield <= v.shield && AbsorbAll(v, damages).health <= v.health
  {
    if damages != [] {
      var init := damages[..|damages| - 1];
      AbsorbAllShrinks(v, init);
      AbsorbAllLoss(v, init);
    }
  }

  /**
    One tick of regeneration at `regen` points per second: a shield below its
    maximum grows but never past it; a full shield is left alone.
  */
  function RegenShield(shield: real, maxShield: real, regen: int, dt: real): (r: real)
    requires regen >= 0 && dt >= 0.0
    ensures shield < maxShield ==> shield <= r <= maxShield
    ensures shield >= maxShield ==> r == shield
  {
    if shield < maxShield then MinR(maxShield, shield + regen as real * dt) else shield
  }

  // ---------------------------------------------------------------------
  // Collision

  /** An object's collision radius: a zero size falls back to 10. */
  function Radius(size: real): real { if size == 0.0 then 10.0 else size }

  /**
    True when the centres are closer than the sum of the radii. The distance
    is compared squared, which is the same test as comparing the square root
    whenever the sum is positive; with a non-positive sum nothing collides.
  */
  predicate Collides(x1: real, y1: real, size1: real, x2: real, y2: real, size2: real)
  {
    var reach := Radius(size1) + Radius(size2);
    reach > 0.0 && (x1 - x2) * (x1 - x2) + (y1 - y2) * (y1 - y2) < reach * reach
  }

  /**
    The squared test agrees with the source's: for the true distance `d`
    between the centres, the objects collide exactly when `d` is below the
    sum of the radii.
  */
  lemma CollidesIsDistanceTest(x1: real, y1: real, size1: real, x2: real, y2: real, size2: real, d: real)
    requires d >= 0.0 && d * d == (x1 - x2) * (x1 - x2) + (y1 - y2) * (y1 - y2)
    ensures Collides(x1, y1, size1, x2, y2, size2) <==> d < Radius(size1) + Radius(size2)
  {
    var reach := Radius(size1) + Radius(size2);
    if reach > 0.0 {
      SquaresOrdered(d, reach);
    }
  }

  /** Between non-negative reals, squaring keeps the strict order. */
  lemma SquaresOrdered(a: real, b: real)
    requires a >= 0.0 && b >= 0.0
    ensures a < b <==> a * a < b * b
  {
    assert b * b - a * a == (b - a) * (b + a);
    if a < b {
      RealProductSign(b - a, b + a);
    } else {
      RealProductSign(a - b, b + a);
      assert a * a - b * b == (a - b) * (b + a);
    }
  }

  lemma RealProductSign(x: real, y: real)
    requires x >= 0.0 && y >= 0.0
    ensures x * y >= 0.0
    ensures x > 0.0 && y > 0.0 ==> x * y > 0.0
  {
  }

  /** The test does not depend on which object is named first. */
  lemma CollidesSymmetric(x1: real, y1: real, size1: real, x2: real, y2: real, size2: real)
    ensures Collides(x1, y1, size1, x2, y2, size2) == Collides(x2, y2, size2, x1, y1, size1)
  {
    assert (x1 - x2) * (x1 - x2) == (x2 - x1) * (x2 - x1);
    assert (y1 - y2) * (y1 - y2) == (y2 - y1) * (y2 - y1);
  }

  /** Two objects with non-negative sizes at the same point always collide. */
  lemma CoincidentCentresCollide(x: real, y: real, size1: real, size2: real)
    requires size1 >= 0.0 && size2 >= 0.0
    ensures Collides(x, y, size1, x, y, size2)
  {
  }

  // ---------------------------------------------------------------------
  // Firing cooldown

  /**
    Whether `elapsed` milliseconds since the last shot cover the cooldown
    of 1000 ms divided by the effective fire rate (`rate` tenths of a shot
    per second, so 10000 / rate ms). A zero rate means an infinite cooldown;
    a negative one a negative cooldown.
  */
  predicate CooldownOver(elapsed: int, rate: int)
  {
    if rate > 0 then elapsed * rate >= 10000
    else if rate == 0 then false
    else elapsed * rate <= 10000
  }

  /**
    The integer test agrees with the source's comparison against the
    cooldown `1000 / (rate / 10)` ms for every non-zero rate; for a zero
    rate the cooldown is infinite and the test never passes.
  */
  lemma CooldownIsQuotientTest(elapsed: int, rate: int)
    requires rate != 0
    ensures CooldownOver(elapsed, rate) <==> elapsed as real >= 10000.0 / rate as real
  {
    var e, r := elapsed as real, rate as real;
    assert (10000.0 / r) * r == 10000.0;
    assert (elapsed * rate) as real == e * r;
    if rate > 0 {
      if e >= 10000.0 / r {
        assert e * r >= (10000.0 / r) * r;
      } else {
        assert e * r < (10000.0 / r) * r;
      }
    } else {
      if e >= 10000.0 / r {
        assert e * r <= (10000.0 / r) * r;
      } else {
        assert e * r > (10000.0 / r) * r;
      }
    }
  }

  /** Upgrading the fire rate never makes the player wait longer. */
  lemma CooldownShrinksWithRate(elapsed: int, rate: int, faster: int)
    requires elapsed >= 0 && 0 < rate <= faster
    requires CooldownOver(elapsed, rate)
    ensures CooldownOver(elapsed, faster)
  {
    assert elapsed * faster == elapsed * rate + elapsed * (faster - rate);
    assert elapsed * (faster - rate) >= 0;
  }
}
