/**
  The moving objects of the simulation and what one tick does to each of
  them, as step and keep functions for the sweeps. Positions and speeds are
  `real`, in pixels and pixels per second; the collision test is the
  squared-distance form of the source's circle test. Steering that needs a
  square root or trigonometry (aiming, pair separation, item homing) is not
  part of this model.
*/
module Entities {
  import opened Catalog
  import opened Rules
  import opened Sweeps

  datatype Mode = Ensemble | Individual | Bell

  datatype Player = Player(x: real, y: real, size: real, lastShot: int)

  datatype Target = Target(x: real, y: real, vx: real, vy: real, size: real, health: int)

  datatype Pair = Pair(a: Target, b: Target)

  datatype Bullet = Bullet(x: real, y: real, vx: real, vy: real, size: real, damage: int, lifetime: real)

  datatype Obstacle = Obstacle(x: real, y: real, vx: real, vy: real, size: real, damage: int)

  datatype Item = Item(x: real, y: real, vx: real, vy: real, kind: Resource, lifetime: real, collected: bool)

  /** Explosion debris; only its position and remaining life matter to the rules. */
  datatype Particle = Particle(x: real, y: real, lifetime: real, maxLifetime: real)

  /** What a tick's sweeps read: the time step, the canvas size and the player. */
  datatype Tick = Tick(dt: real, width: real, height: real, player: Player)

  // ---------------------------------------------------------------------
  // Targets and pairs

  /** A target moves by its velocity and reverses each component that leaves the bounce box. */
  function MoveTarget(c: Tick, t: Target): (r: Target)
    ensures r.x == t.x + t.vx * c.dt && r.y == t.y + t.vy * c.dt
    ensures r.vx == t.vx || r.vx == -t.vx
    ensures r.vy == t.vy || r.vy == -t.vy
    ensures r.size == t.size && r.health == t.health
  {
    var x := t.x + t.vx * c.dt;
    var y := t.y + t.vy * c.dt;
    t.(x := x, y := y,
       vx := if x < t.size || x > c.width - t.size then -t.vx else t.vx,
       vy := if y < t.size || y > c.height - t.size then -t.vy else t.vy)
  }

  predicate TargetAlive(c: Tick, t: Target) { t.health > 0 }

  /** Both members of a pair move and bounce as single targets do. */
  function MovePair(c: Tick, p: Pair): (r: Pair)
    ensures PairAlive(c, r) <==> PairAlive(c, p)
    ensures r.a.size == p.a.size && r.b.size == p.b.size
  {
    Pair(MoveTarget(c, p.a), MoveTarget(c, p.b))
  }

  /** A pair stays while at least one member lives. */
  predicate PairAlive(c: Tick, p: Pair) { p.a.health > 0 || p.b.health > 0 }

  // ---------------------------------------------------------------------
  // Obstacles

  function MovedObstacle(c: Tick, o: Obstacle): Obstacle
  {
    o.(x := o.x + o.vx * c.dt, y := o.y + o.vy * c.dt)
  }

  /** The moved obstacle touches the player. */
  predicate ObstacleContact(c: Tick, o: Obstacle)
  {
    var m := MovedObstacle(c, o);
    Collides(m.x, m.y, m.size, c.player.x, c.player.y, c.player.size)
  }

  /** An obstacle moves; one that touches the player is stopped and shrunk to nothing. */
  function MoveObstacle(c: Tick, o: Obstacle): (r: Obstacle)
    ensures ObstacleContact(c, o) ==> r.size == 0.0 && r.vx == 0.0 && r.vy == 0.0
    ensures !ObstacleContact(c, o) ==> r == MovedObstacle(c, o)
    ensures r.damage == o.damage
  {
    var m := MovedObstacle(c, o);
    if ObstacleContact(c, o) then m.(vx := 0.0, vy := 0.0, size := 0.0) else m
  }

  /** An obstacle stays while it has a size and is within 50 pixels of the canvas. */
  predicate ObstacleKept(c: Tick, o: Obstacle)
  {
    o.size > 0.0 && o.x > -50.0 && o.x < c.width + 50.0 && o.y > -50.0 && o.y < c.height + 50.0
  }

  /** The damage of each obstacle that touches the player this tick, in list order. */
  function ContactDamages(c: Tick, obs: seq<Obstacle>): (ds: seq<real>)
    ensures |ds| <= |obs|
    ensures (forall o :: o in obs ==> o.damage >= 0) ==> forall k :: 0 <= k < |ds| ==> ds[k] >= 0.0
  {
    if obs == [] then []
    else
      var o := obs[|obs| - 1];
      ContactDamages(c, obs[..|obs| - 1]) + (if ObstacleContact(c, o) then [o.damage as real] else [])
  }

  /** Shield and health after this tick's obstacle hits, taken one obstacle at a time in list order. */
  function Absorbed(c: Tick, v0: Vitals, obs: seq<Obstacle>): Vitals
  {
    if obs == [] then v0
    else
      var v, o := Absorbed(c, v0, obs[..|obs| - 1]), obs[|obs| - 1];
      if ObstacleContact(c, o) then AbsorbDamage(v, o.damage as real) else v
  }

  /** Some obstacle's hit this tick leaves the player's health at zero or below. */
  predicate Fatal(c: Tick, v0: Vitals, obs: seq<Obstacle>)
  {
    obs != [] &&
    (Fatal(c, v0, obs[..|obs| - 1]) || (ObstacleContact(c, obs[|obs| - 1]) && Absorbed(c, v0, obs).health <= 0.0))
  }

  /**
    A hit is fatal exactly when the player was hit at all and health ends
    at zero: once health reaches zero no later hit can raise it.
  */
  lemma {:induction false} FatalIffDead(c: Tick, v0: Vitals, obs: seq<Obstacle>)
    requires v0.shield >= 0.0 && v0.health >= 0.0
    requires forall o :: o in obs ==> o.damage >= 0
    ensures Fatal(c, v0, obs) <==> |ContactDamages(c, obs)| > 0 && Absorbed(c, v0, obs).health <= 0.0
  {
    if obs != [] {
      var init, o := obs[..|obs| - 1], obs[|obs| - 1];
      assert forall x :: x in init ==> x in obs;
      assert o in obs;
      FatalIffDead(c, v0, init);
      AbsorbedBounds(c, v0, init);
    }
  }

  /** Obstacle hits never raise the shield or the health, nor take either below zero. */
  lemma {:induction false} AbsorbedBounds(c: Tick, v0: Vitals, obs: seq<Obstacle>)
    requires v0.shield >= 0.0 && v0.health >= 0.0
    requires forall o :: o in obs ==> o.damage >= 0
    ensures var v := Absorbed(c, v0, obs);
      0.0 <= v.shield <= v0.shield && 0.0 <= v.health <= v0.health
  {
    if obs != [] {
      var init, o := obs[..|obs| - 1], obs[|obs| - 1];
      assert forall x :: x in init ==> x in obs;
      AbsorbedBounds(c, v0, init);
      assert o in obs;
    }
  }

  /** Taking the hits one obstacle at a time absorbs exactly the list of the touching obstacles' damages. */
  lemma {:induction false} AbsorbedIsAbsorbAll(c: Tick, v0: Vitals, obs: seq<Obstacle>)
    ensures Absorbed(c, v0, obs) == AbsorbAll(v0, ContactDamages(c, obs))
  {
    if obs != [] {
      var init, o := obs[..|obs| - 1], obs[|obs| - 1];
      AbsorbedIsAbsorbAll(c, v0, init);
      var ds := ContactDamages(c, init);
      if ObstacleContact(c, o) {
        assert (ds + [o.damage as real])[..|ds|] == ds;
      } else {
        assert ds + [] == ds;
      }
    }
  }

  /** The explosions of the obstacles that touch the player this tick, each where its obstacle moved to. */
  function ContactBursts(c: Tick, obs: seq<Obstacle>): (ps: seq<Particle>)
  {
    if obs == [] then []
    else
      var o := obs[|obs| - 1];
      var m := MovedObstacle(c, o);
      ContactBursts(c, obs[..|obs| - 1]) + (if ObstacleContact(c, o) then Burst(m.x, m.y) else [])
  }

  /** Ten particles for every obstacle that hits the player. */
  lemma {:induction false} ContactBurstsCount(c: Tick, obs: seq<Obstacle>)
    ensures |ContactBursts(c, obs)| == 10 * |ContactDamages(c, obs)|
  {
    if obs != [] {
      ContactBurstsCount(c, obs[..|obs| - 1]);
    }
  }

  /** Only obstacles that already deal non-negative damage come out of the obstacle sweep. */
  lemma KeptObstaclesHarmless(c: Tick, obs: seq<Obstacle>)
    requires forall o :: o in obs ==> o.damage >= 0
    ensures forall o :: o in Sweep(c, obs, MoveObstacle, ObstacleKept) ==> o.damage >= 0
  {
    forall y | y in Sweep(c, obs, MoveObstacle, ObstacleKept) ensures y.damage >= 0 {
      SweepOnlySteps(c, obs, MoveObstacle, ObstacleKept, y);
      var k :| 0 <= k < |obs| && y == MoveObstacle(c, obs[k]);
      assert obs[k] in obs;
    }
  }

  /**
    The obstacle loop's running state: the obstacles kept so far, shield
    and health, the explosions so far, and whether a hit has been fatal.
  */
  datatype ObstaclePass = ObstaclePass(kept: seq<Obstacle>, vitals: Vitals, sparks: seq<Particle>, fatal: bool)

  /**
    One obstacle of the loop: it moves; on contact it hits the shield and
    health, explodes where it moved to, and is fatal if health is left at
    zero or below; it is kept if still on or near the canvas.
  */
  function CollideOne(c: Tick, st: ObstaclePass, o0: Obstacle): ObstaclePass
  {
    var hit, o, m := ObstacleContact(c, o0), MoveObstacle(c, o0), MovedObstacle(c, o0);
    var v := if hit then AbsorbDamage(st.vitals, o0.damage as real) else st.vitals;
    ObstaclePass(st.kept + (if ObstacleKept(c, o) then [o] else []), v,
                 st.sparks + (if hit then Burst(m.x, m.y) else []),
                 st.fatal || (hit && v.health <= 0.0))
  }

  /** The loop's state after the obstacles `obs`, from shield and health `v0`. */
  function CollideAll(c: Tick, v0: Vitals, obs: seq<Obstacle>): ObstaclePass
  {
    if obs == [] then ObstaclePass([], v0, [], false)
    else CollideOne(c, CollideAll(c, v0, obs[..|obs| - 1]), obs[|obs| - 1])
  }

  lemma CollideAllStep(c: Tick, v0: Vitals, obs: seq<Obstacle>, i: nat)
    requires i < |obs|
    ensures CollideAll(c, v0, obs[..i + 1]) == CollideOne(c, CollideAll(c, v0, obs[..i]), obs[i])
  {
    assert obs[..i + 1][..i] == obs[..i];
  }

  /**
    The loop's state is, part by part, the tick's obstacle outcome: the
    sweep of the obstacles, the hits absorbed in list order, the contact
    explosions, and whether some hit was fatal.
  */
  lemma {:induction false} CollideAllMeans(c: Tick, v0: Vitals, obs: seq<Obstacle>)
    ensures CollideAll(c, v0, obs)
         == ObstaclePass(Sweep(c, obs, MoveObstacle, ObstacleKept), Absorbed(c, v0, obs),
                         ContactBursts(c, obs), Fatal(c, v0, obs))
  {
    if obs != [] {
      CollideAllMeans(c, v0, obs[..|obs| - 1]);
    }
  }

  // ---------------------------------------------------------------------
  // Items

  function MovedItem(c: Tick, it: Item): Item
  {
    it.(x := it.x + it.vx * c.dt, y := it.y + it.vy * c.dt,
        vx := it.vx * 0.95, vy := it.vy * 0.95, lifetime := it.lifetime - c.dt)
  }

  /** The moved item touches the player; an item has no size and so a radius of 10. */
  predicate ItemContact(c: Tick, it: Item)
  {
    var m := MovedItem(c, it);
    Collides(m.x, m.y, 0.0, c.player.x, c.player.y, c.player.size)
  }

  /** An item drifts, slows by 5 percent, ages, and is marked collected on contact. */
  function MoveItem(c: Tick, it: Item): (r: Item)
    ensures r.kind == it.kind && r.lifetime == it.lifetime - c.dt
    ensures r.collected == (it.collected || ItemContact(c, it))
  {
    var m := MovedItem(c, it);
    if ItemContact(c, it) then m.(collected := true) else m
  }

  predicate ItemKept(c: Tick, it: Item) { !it.collected && it.lifetime > 0.0 }

  /** How many items of `kind` the player picks up this tick. */
  function Pickups(c: Tick, items: seq<Item>, kind: Resource): (n: nat)
    ensures n <= |items|
  {
    if items == [] then 0
    else
      var it := items[|items| - 1];
      Pickups(c, items[..|items| - 1], kind) + (if ItemContact(c, it) && it.kind == kind then 1 else 0)
  }

  lemma PickupsStep(c: Tick, items: seq<Item>, kind: Resource, i: nat)
    requires i < |items|
    ensures Pickups(c, items[..i + 1], kind)
         == Pickups(c, items[..i], kind) + (if ItemContact(c, items[i]) && items[i].kind == kind then 1 else 0)
  {
    assert items[..i + 1][..i] == items[..i];
  }

  /**
    No item is both picked up and kept: every item left after the sweep is
    one the player did not touch.
  */
  lemma {:induction false} CollectedItemsLeave(c: Tick, items: seq<Item>, y: Item)
    requires y in Sweep(c, items, MoveItem, ItemKept)
    ensures !y.collected && y.lifetime > 0.0
    ensures exists k :: 0 <= k < |items| && y == MoveItem(c, items[k]) && !ItemContact(c, items[k])
  {
    SweepOnlySteps(c, items, MoveItem, ItemKept, y);
    var k :| 0 <= k < |items| && y == MoveItem(c, items[k]);
  }

  // ---------------------------------------------------------------------
  // Particles

  predicate ParticleAlive(c: Tick, p: Particle) { p.lifetime > 0.0 }

  /** A particle loses `dt` of its lifetime, and survives the tick exactly when it had more than `dt` left. */
  function AgeParticle(c: Tick, p: Particle): (r: Particle)
    ensures r.maxLifetime == p.maxLifetime
    ensures c.dt >= 0.0 ==> r.lifetime <= p.lifetime
    ensures ParticleAlive(c, r) <==> p.lifetime > c.dt
  {
    p.(lifetime := p.lifetime - c.dt)
  }

  /** The ten particles of one explosion at a point, each living half a second. */
  function Burst(x: real, y: real): (ps: seq<Particle>)
    ensures |ps| == 10
    ensures forall k :: 0 <= k < 10 ==> ps[k] == Particle(x, y, 0.5, 0.5)
  {
    seq(10, _ => Particle(x, y, 0.5, 0.5))
  }

  // ---------------------------------------------------------------------
  // Bullets

  /** What the bullet phase reads: the tick, the mode and the targets and pairs at its start. */
  datatype Arena = Arena(tick: Tick, mode: Mode, targets: seq<Target>, pairs: seq<Pair>)

  /** A bullet flies on and ages. */
  function Advance(a: Arena, b: Bullet): (r: Bullet)
    ensures r.vx == b.vx && r.vy == b.vy && r.size == b.size && r.damage == b.damage
    ensures a.tick.dt >= 0.0 ==> r.lifetime <= b.lifetime
  {
    b.(x := b.x + b.vx * a.tick.dt, y := b.y + b.vy * a.tick.dt, lifetime := b.lifetime - a.tick.dt)
  }

  predicate HitsTarget(b: Bullet, t: Target)
  {
    Collides(b.x, b.y, b.size, t.x, t.y, t.size)
  }

  /** The first target the bullet touches, dead or alive, or -1. */
  function FirstTargetHit(b: Bullet, ts: seq<Target>): (k: int)
    ensures -1 <= k < |ts|
    ensures k >= 0 ==> HitsTarget(b, ts[k]) && forall m :: 0 <= m < k ==> !HitsTarget(b, ts[m])
    ensures k == -1 <==> forall m :: 0 <= m < |ts| ==> !HitsTarget(b, ts[m])
  {
    if ts == [] then -1
    else if HitsTarget(b, ts[0]) then 0
    else
      var k := FirstTargetHit(b, ts[1..]);
      if k < 0 then -1 else k + 1
  }

  predicate HitsPair(b: Bullet, p: Pair) { HitsTarget(b, p.a) || HitsTarget(b, p.b) }

  /** The first pair with a member the bullet touches, or -1. */
  function FirstPairHit(b: Bullet, ps: seq<Pair>): (k: int)
    ensures -1 <= k < |ps|
    ensures k >= 0 ==> HitsPair(b, ps[k]) && forall m :: 0 <= m < k ==> !HitsPair(b, ps[m])
    ensures k == -1 <==> forall m :: 0 <= m < |ps| ==> !HitsPair(b, ps[m])
  {
    if ps == [] then -1
    else if HitsPair(b, ps[0]) then 0
    else
      var k := FirstPairHit(b, ps[1..]);
      if k < 0 then -1 else k + 1
  }

  predicate OutOfBounds(c: Tick, b: Bullet)
  {
    b.x < 0.0 || b.x > c.width || b.y < 0.0 || b.y > c.height
  }

  /**
    What becomes of a bullet this tick. It hits the first target (or, in
    pair mode, the first pair) it touches; otherwise it leaves the canvas
    or burns out, which counts as a miss only while it still had lifetime;
    otherwise it flies on.
  */
  datatype Fate = HitTarget(k: nat) | HitPair(k: nat, onA: bool) | Missed | Expired | Flying

  function FateOf(a: Arena, b: Bullet): (f: Fate)
    ensures f.HitTarget? ==> a.mode != Bell && f.k == FirstTargetHit(b, a.targets)
    ensures f.HitPair? ==>
      a.mode == Bell && f.k == FirstPairHit(b, a.pairs) && f.onA == HitsTarget(b, a.pairs[f.k].a)
    ensures f.Missed? ==> b.lifetime > 0.0 && OutOfBounds(a.tick, b)
    ensures f.Expired? ==> b.lifetime <= 0.0
    ensures f.Flying? ==> b.lifetime > 0.0 && !OutOfBounds(a.tick, b)
  {
    var k := if a.mode == Bell then FirstPairHit(b, a.pairs) else FirstTargetHit(b, a.targets);
    if k >= 0 && a.mode == Bell then HitPair(k, HitsTarget(b, a.pairs[k].a))
    else if k >= 0 then HitTarget(k)
    else if OutOfBounds(a.tick, b) || b.lifetime <= 0.0 then
      (if b.lifetime > 0.0 then Missed else Expired)
    else Flying
  }

  /** The moved bullet stays in flight. */
  predicate InFlight(a: Arena, b: Bullet) { FateOf(a, b).Flying? }

  /** The bullet scores a kill this tick. */
  predicate Scores(a: Arena, b: Bullet)
  {
    var f := FateOf(a, Advance(a, b));
    f.HitTarget? || f.HitPair?
  }

  /** The bullet counts as a miss this tick. */
  predicate Misses(a: Arena, b: Bullet) { FateOf(a, Advance(a, b)).Missed? }

  /** A bullet scores, misses, expires or stays: a scoring bullet never counts as a miss and never stays. */
  lemma FatesExclusive(a: Arena, b: Bullet)
    ensures !(Scores(a, b) && Misses(a, b))
    ensures Scores(a, b) || Misses(a, b) ==> !InFlight(a, Advance(a, b))
    ensures Misses(a, b) ==> Advance(a, b).lifetime > 0.0
  {
  }

  /** A bullet that touches a target in single-target mode always scores, whatever else holds. */
  lemma {:induction false} TouchScores(a: Arena, b: Bullet, k: nat)
    requires a.mode != Bell && k < |a.targets| && HitsTarget(Advance(a, b), a.targets[k])
    ensures Scores(a, b) && !Misses(a, b)
  {
    assert FirstTargetHit(Advance(a, b), a.targets) != -1;
  }

  /** Indices of the targets some bullet of `bs` kills this tick. */
  function TargetKills(a: Arena, bs: seq<Bullet>): set<nat>
  {
    if bs == [] then {}
    else
      var f := FateOf(a, Advance(a, bs[|bs| - 1]));
      TargetKills(a, bs[..|bs| - 1]) + (if f.HitTarget? then {f.k} else {})
  }

  /** Indices of the pairs some bullet of `bs` kills this tick. */
  function PairKills(a: Arena, bs: seq<Bullet>): set<nat>
  {
    if bs == [] then {}
    else
      var f := FateOf(a, Advance(a, bs[|bs| - 1]));
      PairKills(a, bs[..|bs| - 1]) + (if f.HitPair? then {f.k} else {})
  }

  /**
    The targets after the kills of `bs`, bullet by bullet: a kill sets the
    health of the target hit to 0 in place.
  */
  function TargetsAfter(a: Arena, bs: seq<Bullet>): (ts: seq<Target>)
    ensures |ts| == |a.targets|
  {
    if bs == [] then a.targets
    else
      var ts, f := TargetsAfter(a, bs[..|bs| - 1]), FateOf(a, Advance(a, bs[|bs| - 1]));
      if f.HitTarget? then ts[f.k := ts[f.k].(health := 0)] else ts
  }

  /** The pairs after the kills of `bs`: a kill sets the health of both members to 0 in place. */
  function PairsAfter(a: Arena, bs: seq<Bullet>): (ps: seq<Pair>)
    ensures |ps| == |a.pairs|
  {
    if bs == [] then a.pairs
    else
      var ps, f := PairsAfter(a, bs[..|bs| - 1]), FateOf(a, Advance(a, bs[|bs| - 1]));
      if f.HitPair? then ps[f.k := Pair(ps[f.k].a.(health := 0), ps[f.k].b.(health := 0))] else ps
  }

  /**
    After the bullet phase exactly the targets some bullet hit have health
    0, and every other target is as it was: the order of the kills does not
    matter.
  */
  lemma {:induction false} TargetsAfterKills(a: Arena, bs: seq<Bullet>)
    ensures forall k :: 0 <= k < |a.targets| ==>
      TargetsAfter(a, bs)[k] == if k in TargetKills(a, bs) then a.targets[k].(health := 0) else a.targets[k]
  {
    if bs != [] {
      TargetsAfterKills(a, bs[..|bs| - 1]);
    }
  }

  /** The same for pairs: exactly the pairs some bullet hit have both members at health 0. */
  lemma {:induction false} PairsAfterKills(a: Arena, bs: seq<Bullet>)
    ensures forall k :: 0 <= k < |a.pairs| ==>
      PairsAfter(a, bs)[k]
      == if k in PairKills(a, bs) then Pair(a.pairs[k].a.(health := 0), a.pairs[k].b.(health := 0)) else a.pairs[k]
  {
    if bs != [] {
      PairsAfterKills(a, bs[..|bs| - 1]);
    }
  }

  /** Hit tests ignore health: the kills so far change no later bullet's first hit. */
  lemma KilledTargetsStillHit(a: Arena, bs: seq<Bullet>, b: Bullet)
    ensures FirstTargetHit(b, TargetsAfter(a, bs)) == FirstTargetHit(b, a.targets)
  {
    TargetsAfterKills(a, bs);
    var us := TargetsAfter(a, bs);
    assert forall m :: 0 <= m < |us| ==> HitsTarget(b, us[m]) == HitsTarget(b, a.targets[m]);
  }

  lemma KilledPairsStillHit(a: Arena, bs: seq<Bullet>, b: Bullet)
    ensures FirstPairHit(b, PairsAfter(a, bs)) == FirstPairHit(b, a.pairs)
    ensures forall k :: 0 <= k < |a.pairs| ==> HitsTarget(b, PairsAfter(a, bs)[k].a) == HitsTarget(b, a.pairs[k].a)
  {
    PairsAfterKills(a, bs);
    var qs := PairsAfter(a, bs);
    assert forall m :: 0 <= m < |qs| ==> HitsPair(b, qs[m]) == HitsPair(b, a.pairs[m]);
  }

  /**
    Where a scoring bullet's kill drops its loot: at the target it hit or,
    in pair mode, at the member of the pair it hit (the first one when it
    touches both). Elsewhere, the bullet's own position.
  */
  function DropSite(a: Arena, b: Bullet): (real, real)
  {
    match FateOf(a, b)
    case HitTarget(k) => (a.targets[k].x, a.targets[k].y)
    case HitPair(k, onA) => if onA then (a.pairs[k].a.x, a.pairs[k].a.y) else (a.pairs[k].b.x, a.pairs[k].b.y)
    case _ => (b.x, b.y)
  }

  /** Where a kill's explosion goes: at the target hit, or at the bullet when it hits a pair. */
  function BlastSite(a: Arena, b: Bullet): (real, real)
  {
    match FateOf(a, b)
    case HitTarget(k) => (a.targets[k].x, a.targets[k].y)
    case _ => (b.x, b.y)
  }

  /** The explosions of this tick's kills, in bullet order. */
  function KillBursts(a: Arena, bs: seq<Bullet>): (ps: seq<Particle>)
  {
    if bs == [] then []
    else
      var b := Advance(a, bs[|bs| - 1]);
      var site := BlastSite(a, b);
      KillBursts(a, bs[..|bs| - 1]) + (if Scores(a, bs[|bs| - 1]) then Burst(site.0, site.1) else [])
  }

  /** Ten particles for every kill. */
  lemma {:induction false} KillBurstsCount(a: Arena, bs: seq<Bullet>)
    ensures |KillBursts(a, bs)| == 10 * Count(a, bs, Scores)
  {
    if bs != [] {
      KillBurstsCount(a, bs[..|bs| - 1]);
    }
  }

}
