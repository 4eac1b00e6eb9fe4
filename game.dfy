/**
  The game object of the space shooter: one class whose methods update its
  fields in place, as the browser game does on every key press, crafting or
  shop click and animation frame. Random numbers, the wall clock and the
  aiming trigonometry come in as parameters.
*/
module Game {
  import opened Options
  import opened Catalog
  import opened Rules
  import opened Sweeps
  import opened Progression
  import opened Entities
  import opened Control
  import opened Ranking

  /** A draw of `Math.random`: a number in [0, 1). */
  predicate Unit(u: real) { 0.0 <= u < 1.0 }

  /**
    The draws for one spawned target or pair, in the order they are taken:
    position, offset of the second member, velocities of both members.
    A single target uses `x`, `y`, `avx` and `avy`.
  */
  datatype SpawnDraw = SpawnDraw(x: real, y: real, dx: real, dy: real, avx: real, avy: real, bvx: real, bvy: real)

  /**
    The draws for one obstacle: the side it enters from (the quarter, 0 to
    3, that a draw times 4 falls in), where along it, and its sideways drift.
  */
  datatype ObstacleDraw = ObstacleDraw(side: int, along: real, drift: real)

  /** The draws for one kill's drop: whether an item drops, which kind, and its velocity. */
  datatype DropRoll = DropRoll(chance: real, pick: real, vx: real, vy: real)

  /** A bullet's velocity, already aimed (with the ensemble jitter) and scaled to 500 pixels per second. */
  datatype Velocity = Velocity(vx: real, vy: real)

  /** The movement keys held (W or up, S or down, A or left, D or right) and the mouse button. */
  datatype Controls = Controls(up: bool, down: bool, left: bool, right: bool, mouseDown: bool)

  // ---------------------------------------------------------------------
  // Spawning

  /** A single target: inside the canvas margins, slow, one hit point. */
  function NewTarget(d: SpawnDraw, width: int, height: int): Target
  {
    Target(Scaled(d.x, MaxR(50.0, width as real - 100.0)) + 50.0,
           Scaled(d.y, MaxR(50.0, height as real - 200.0)) + 50.0,
           (d.avx - 0.5) * 50.0, (d.avy - 0.5) * 50.0, 15.0, 1)
  }

  /** A pair: the second member within 75 pixels of the first on each axis. */
  function NewPair(d: SpawnDraw, width: int, height: int): Pair
  {
    var x1 := Scaled(d.x, MaxR(100.0, width as real - 200.0)) + 100.0;
    var y1 := Scaled(d.y, MaxR(100.0, height as real - 200.0)) + 100.0;
    Pair(Target(x1, y1, (d.avx - 0.5) * 50.0, (d.avy - 0.5) * 50.0, 15.0, 1),
         Target(x1 + Scaled(d.dx, 150.0) - 75.0, y1 + Scaled(d.dy, 150.0) - 75.0,
                (d.bvx - 0.5) * 50.0, (d.bvy - 0.5) * 50.0, 15.0, 1))
  }

  /** A wave of `n` single targets, the `k`-th built from draw `k`. */
  function TargetWave(draws: nat -> SpawnDraw, n: nat, width: int, height: int): (ts: seq<Target>)
    ensures |ts| == n
    ensures forall k :: 0 <= k < n ==> ts[k] == NewTarget(draws(k), width, height)
  {
    seq(n, k requires 0 <= k => NewTarget(draws(k), width, height))
  }

  /** A wave of `n` pairs, the `k`-th built from draw `k`. */
  function PairWave(draws: nat -> SpawnDraw, n: nat, width: int, height: int): (ps: seq<Pair>)
    ensures |ps| == n
    ensures forall k :: 0 <= k < n ==> ps[k] == NewPair(draws(k), width, height)
  {
    seq(n, k requires 0 <= k => NewPair(draws(k), width, height))
  }

  /** A draw `u` scaled to the range `m`. */
  function Scaled(u: real, m: real): real { u * m }

  /** A draw scaled to a positive `m` lies in [0, m), and is 0 when `m` is. */
  lemma ScaledDraw(u: real, m: real)
    requires Unit(u) && m >= 0.0
    ensures 0.0 <= Scaled(u, m) <= m
    ensures m > 0.0 ==> Scaled(u, m) < m
  {
    RealProductSign(u, m);
    RealProductSign(1.0 - u, m);
    assert m - u * m == (1.0 - u) * m;
  }

  /**
    On a canvas of at least 150 by 250 pixels a spawned target lies at least
    50 pixels inside the left, top and right edges and 150 above the bottom.
  */
  lemma TargetSpawnsInside(d: SpawnDraw, width: int, height: int)
    requires Unit(d.x) && Unit(d.y)
    requires width >= 150 && height >= 250
    ensures var t := NewTarget(d, width, height);
      50.0 <= t.x < width as real - 50.0 && 50.0 <= t.y < height as real - 150.0 && t.health == 1
  {
    var mx, my := width as real - 100.0, height as real - 200.0;
    assert MaxR(50.0, mx) == mx && MaxR(50.0, my) == my;
    ScaledDraw(d.x, mx);
    ScaledDraw(d.y, my);
    var t := NewTarget(d, width, height);
    assert t.x == Scaled(d.x, mx) + 50.0 && t.y == Scaled(d.y, my) + 50.0;
  }

  /**
    On a canvas of at least 300 by 300 pixels a pair's first member lies 100
    pixels inside every edge and its second at most 75 pixels away on each axis.
  */
  lemma PairSpawnsInside(d: SpawnDraw, width: int, height: int)
    requires Unit(d.x) && Unit(d.y) && Unit(d.dx) && Unit(d.dy)
    requires width >= 300 && height >= 300
    ensures var p := NewPair(d, width, height);
      && 100.0 <= p.a.x < width as real - 100.0 && 100.0 <= p.a.y < height as real - 100.0
      && -75.0 <= p.b.x - p.a.x < 75.0 && -75.0 <= p.b.y - p.a.y < 75.0
      && p.a.health == 1 && p.b.health == 1
  {
    var mx, my := width as real - 200.0, height as real - 200.0;
    assert MaxR(100.0, mx) == mx && MaxR(100.0, my) == my;
    ScaledDraw(d.x, mx);
    ScaledDraw(d.y, my);
    ScaledDraw(d.dx, 150.0);
    ScaledDraw(d.dy, 150.0);
    var p := NewPair(d, width, height);
    assert p.a.x == Scaled(d.x, mx) + 100.0 && p.a.y == Scaled(d.y, my) + 100.0;
  }

  /**
    An obstacle of the current level entering from one side: top, right,
    bottom or left for side draws 0, 1, 2 and 3.
  */
  function NewObstacle(d: ObstacleDraw, width: int, height: int, level: int): (o: Obstacle)
    ensures o.size == ObstacleSize(level) as real && o.damage == ObstacleDamage(level)
  {
    var speed := ObstacleSpeed(level) as real;
    var drift := (d.drift - 0.5) * 100.0;
    var w, h := width as real, height as real;
    var size, damage := ObstacleSize(level) as real, ObstacleDamage(level);
    if d.side == 0 then Obstacle(Scaled(d.along, w), -20.0, drift, speed, size, damage)
    else if d.side == 1 then Obstacle(w + 20.0, Scaled(d.along, h), -speed, drift, size, damage)
    else if d.side == 2 then Obstacle(Scaled(d.along, w), h + 20.0, drift, -speed, size, damage)
    else Obstacle(-20.0, Scaled(d.along, h), speed, drift, size, damage)
  }

  /**
    A new obstacle starts 20 pixels beyond one edge, heading into the
    canvas, inside the band in which obstacles are kept, with a positive
    size and damage.
  */
  lemma {:induction false} ObstacleEntersCanvas(d: ObstacleDraw, width: nat, height: nat, level: int, c: Tick)
    requires Unit(d.along) && level >= 1
    requires c.width == width as real && c.height == height as real
    ensures var o := NewObstacle(d, width, height, level);
      && ((o.y == -20.0 && o.vy > 0.0) || (o.x == width as real + 20.0 && o.vx < 0.0)
          || (o.y == height as real + 20.0 && o.vy < 0.0) || (o.x == -20.0 && o.vx > 0.0))
      && ObstacleKept(c, o) && o.damage > 0
  {
    var speed, drift := ObstacleSpeed(level) as real, (d.drift - 0.5) * 100.0;
    var size, damage := ObstacleSize(level) as real, ObstacleDamage(level);
    assert speed > 0.0 && size > 0.0 && damage > 0;
    var w, h := width as real, height as real;
    var o := NewObstacle(d, width, height, level);
    if d.side == 0 {
      assert o == Obstacle(Scaled(d.along, w), -20.0, drift, speed, size, damage);
      ScaledDraw(d.along, w);
      assert -20.0 <= o.x <= c.width + 20.0;
    } else if d.side == 1 {
      assert o == Obstacle(w + 20.0, Scaled(d.along, h), -speed, drift, size, damage);
      ScaledDraw(d.along, h);
      assert -20.0 <= o.y <= c.height + 20.0;
    } else if d.side == 2 {
      assert o == Obstacle(Scaled(d.along, w), h + 20.0, drift, -speed, size, damage);
      ScaledDraw(d.along, w);
      assert -20.0 <= o.x <= c.width + 20.0;
    } else {
      assert o == Obstacle(-20.0, Scaled(d.along, h), speed, drift, size, damage);
      ScaledDraw(d.along, h);
      assert -20.0 <= o.y <= c.height + 20.0;
    }
    NearCanvasKept(c, o);
  }

  /** An obstacle with a size within 20 pixels of the canvas is kept. */
  lemma NearCanvasKept(c: Tick, o: Obstacle)
    requires o.size > 0.0 && -20.0 <= o.x <= c.width + 20.0 && -20.0 <= o.y <= c.height + 20.0
    ensures ObstacleKept(c, o)
  {
  }

  /** The pickup a kill drops when the drop roll is under 0.3. */
  function DroppedItem(x: real, y: real, roll: DropRoll): (it: Item)
    requires Unit(roll.pick)
    ensures it.kind in ItemTypes && it.kind != Tokens && !it.collected && it.lifetime == 5.0
  {
    var k := (roll.pick * 4.0).Floor;
    assert 0 <= k < 4;
    Item(x, y, (roll.vx - 0.5) * 50.0, (roll.vy - 0.5) * 50.0, ItemTypes[k], 5.0, false)
  }

  // ---------------------------------------------------------------------
  // Shooting

  /** Shots per second, in tenths, of a weapon with the bought fire-rate upgrades added. */
  function EffectiveFireRate(w: WeaponSpec, s: Stats): (rate: int)
    ensures s.baseFireRate <= s.fireRate ==> rate >= w.fireRate
  {
    w.fireRate + (s.fireRate - s.baseFireRate)
  }

  /**
    Whether a shot goes off `elapsed` ms after the previous one: an
    automatic weapon needs the button held, and the cooldown of the
    effective fire rate must be over.
  */
  predicate Fires(w: WeaponSpec, s: Stats, elapsed: int, mouseDown: bool)
  {
    (!w.automatic || mouseDown) && CooldownOver(elapsed, EffectiveFireRate(w, s))
  }

  /** One volley: a fan of `spread` bullets, or a single one, all leaving from the player. */
  function Volley(p: Player, w: WeaponSpec, aim: nat -> Velocity): (bs: seq<Bullet>)
    ensures |bs| == if w.spread > 0 then w.spread else 1
    ensures forall k :: 0 <= k < |bs| ==>
      bs[k] == Bullet(p.x, p.y, aim(k).vx, aim(k).vy, 5.0, w.damage, 2.0)
  {
    seq(if w.spread > 0 then w.spread else 1,
        k requires k >= 0 => Bullet(p.x, p.y, aim(k).vx, aim(k).vy, 5.0, w.damage, 2.0))
  }

  /** Pixels per second of a ship with the bought speed upgrades added. */
  function TopSpeed(ship: ShipSpec, s: Stats): (speed: int)
    ensures s.baseSpeed <= s.speed ==> speed >= ship.speed
  {
    ship.speed + (s.speed - s.baseSpeed)
  }

  /** Pixels covered in `dt` seconds at `speed` pixels per second. */
  function Travel(speed: int, dt: real): real
  {
    speed as real * dt
  }

  /** `v` held between `lo` and `hi`: `max(lo, min(hi, v))`. */
  function Clamp(lo: real, hi: real, v: real): (r: real)
    ensures lo <= hi ==> lo <= r <= hi
    ensures lo <= v <= hi ==> r == v
  {
    MaxR(lo, MinR(hi, v))
  }

  /**
    The player after one frame's movement of `step` pixels along each held
    direction (up and left subtract, down and right add), clamped to stay
    its size inside the canvas. The S-key retreat away from the mouse is
    not part of this model.
  */
  function Steered(p: Player, step: real, ctl: Controls, width: int, height: int): (q: Player)
    ensures q.size == p.size && q.lastShot == p.lastShot
    ensures width as real >= 2.0 * p.size ==> p.size <= q.x <= width as real - p.size
    ensures height as real >= 2.0 * p.size ==> p.size <= q.y <= height as real - p.size
  {
    var y := p.y - (if ctl.up then step else 0.0) + (if ctl.down then step else 0.0);
    var x := p.x - (if ctl.left then step else 0.0) + (if ctl.right then step else 0.0);
    p.(x := Clamp(p.size, width as real - p.size, x), y := Clamp(p.size, height as real - p.size, y))
  }

  /** Holding no direction key leaves a player already inside the canvas where it is. */
  lemma {:induction false} IdleStaysPut(p: Player, step: real, width: int, height: int)
    requires p.size <= p.x <= width as real - p.size && p.size <= p.y <= height as real - p.size
    ensures Steered(p, step, Controls(false, false, false, false, false), width, height) == p
  {
  }

  /** Opposite keys held together cancel out. */
  lemma {:induction false} OppositeKeysCancel(p: Player, step: real, ctl: Controls, width: int, height: int)
    requires ctl.left && ctl.right && ctl.up && ctl.down
    ensures Steered(p, step, ctl, width, height) == Steered(p, step, Controls(false, false, false, false, ctl.mouseDown), width, height)
  {
  }

  // ---------------------------------------------------------------------
  // The game object

  class SpaceShooter {
    var mode: Mode
    var level: int
    var state: GameState
    var stats: Stats
    var currentShip: string
    var currentWeapon: string
    var currentShield: string
    var inventory: Inventory
    var player: Player
    var bullets: seq<Bullet>
    var targets: seq<Target>
    var pairs: seq<Pair>
    var obstacles: seq<Obstacle>
    var items: seq<Item>
    var particles: seq<Particle>
    var score: int
    var hits: nat
    var misses: nat
    /** Seconds of play since the last restart. */
    var time: real
    /** Wall-clock milliseconds of the last spawn, and the intervals between spawns. */
    var lastTargetSpawn: int
    var lastObstacleSpawn: int
    var targetSpawnRate: int
    var obstacleSpawnRate: int
    /** The canvas size in pixels. */
    var width: nat
    var height: nat
    var playerName: string
    var leaderboard: seq<Entry>

    /**
      What every operation keeps: a full, non-negative inventory; health and
      shield within their maxima; equipment from the catalog; the level
      given by the play time; 10 points per hit; spawn intervals at their
      floors or above; harmless-or-harmful (never healing) obstacles. Each
      operation states the parts over the fields it writes; the others
      hold because it leaves their fields alone.
    */
    ghost predicate Valid()
      reads this`inventory, this`stats, this`currentShip, this`currentWeapon, this`currentShield,
        this`time, this`level, this`hits, this`score,
        this`targetSpawnRate, this`obstacleSpawnRate, this`obstacles
    {
      Stocked() && Fit() && Equipped() && Clocked() && Tallied() && Paced() && Hazards()
    }

    ghost predicate Stocked() reads this`inventory { InventoryValid(inventory) }

    ghost predicate Fit() reads this`stats { StatsValid(stats) }

    ghost predicate Equipped()
      reads this`currentShip, this`currentWeapon, this`currentShield
    {
      currentShip in ShipNames && currentWeapon in WeaponNames && currentShield in ShieldNames
    }

    /** The level is the number of the 30-second period of play the clock is in. */
    ghost predicate Clocked()
      reads this`time, this`level
    {
      time >= 0.0 && (level - 1) as real * 30.0 <= time < level as real * 30.0
    }

    ghost predicate Tallied() reads this`hits, this`score { score == 10 * hits }

    ghost predicate Paced()
      reads this`targetSpawnRate, this`obstacleSpawnRate
    {
      targetSpawnRate >= 500 && obstacleSpawnRate >= 1000
    }

    ghost predicate Hazards() reads this`obstacles { forall o :: o in obstacles ==> o.damage >= 0 }

    /** The Tick the sweeps of this frame read. */
    function TickOf(dt: real): Tick
      reads this`width, this`height, this`player
    {
      Tick(dt, width as real, height as real, player)
    }

    /**
      A new game: individual mode, level 1, in play, basic ship and weapon,
      no shield item yet (but 50 shield points), an empty inventory and
      empty collections. The canvas is sized before the player exists, so
      the player starts at the origin until the first frame clamps it.
    */
    constructor(w: nat, h: nat, name: string)
      ensures Valid()
      ensures mode == Individual && level == 1 && state == Playing && stats == InitialStats
      ensures currentShip == "basic" && currentWeapon == "basic" && currentShield == "none"
      ensures inventory == EmptyInventory && player == Player(0.0, 0.0, 20.0, 0)
      ensures bullets == [] && targets == [] && pairs == [] && obstacles == [] && items == [] && particles == []
      ensures score == 0 && hits == 0 && misses == 0 && time == 0.0
      ensures lastTargetSpawn == 0 && lastObstacleSpawn == 0
      ensures targetSpawnRate == 2000 && obstacleSpawnRate == 3000
      ensures width == w && height == h && playerName == name && leaderboard == []
    {
      width, height := w, h;
      mode := Individual;
      level := 1;
      state := Playing;
      stats := InitialStats;
      currentShip, currentWeapon, currentShield := "basic", "basic", "none";
      inventory := EmptyInventory;
      player := Player(0.0, 0.0, 20.0, 0);
      bullets, targets, pairs, obstacles, items, particles := [], [], [], [], [], [];
      score, hits, misses, time := 0, 0, 0, 0.0;
      lastTargetSpawn, lastObstacleSpawn := 0, 0;
      targetSpawnRate, obstacleSpawnRate := 2000, 3000;
      playerName := name;
      leaderboard := [];
    }

    /** The window was resized: the canvas follows and the player is recentred near the bottom. */
    method Resize(w: nat, h: nat)
      modifies this`width, this`height, this`player
      ensures width == w && height == h
      ensures player == old(player).(x := w as real / 2.0, y := h as real - 100.0)
    {
      width, height := w, h;
      player := player.(x := w as real / 2.0, y := h as real - 100.0);
    }

    method SetMode(m: Mode)
      modifies this`mode
      ensures mode == m
    {
      mode := m;
    }

    // -------------------------------------------------------------------
    // Panels

    method ToggleCrafting()
      modifies this`state
      ensures state == CraftingToggled(old(state))
    {
      if state == Crafting {
        state := Playing;
      } else {
        state := Crafting;
      }
    }

    method ToggleShop()
      modifies this`state
      ensures state == ShopToggled(old(state))
    {
      if state == Shop {
        state := Playing;
      } else {
        state := Shop;
      }
    }

    method ToggleLeaderboard()
      modifies this`state
      ensures state == LeaderboardToggled(old(state))
    {
      if state == Leaderboard {
        state := if state == GameOver then GameOver else Playing;
      } else {
        state := Leaderboard;
      }
    }

    // -------------------------------------------------------------------
    // Crafting and the shop

    /**
      Crafts `name`: fails, changing nothing, when there is no such recipe
      or any material is short; otherwise pays every material and equips
      the item, re-deriving the ship's or the shield's stats.
    */
    method Craft(category: Category, name: string) returns (ok: bool)
      requires Stocked() && Fit() && Equipped()
      modifies this`inventory, this`stats, this`currentWeapon, this`currentShip, this`currentShield
      ensures Stocked() && Fit() && Equipped()
      ensures ok <==> RecipeFor(category, name).Some? && Affordable(old(inventory), RecipeFor(category, name).value)
      ensures !ok ==>
        inventory == old(inventory) && stats == old(stats)
        && currentWeapon == old(currentWeapon) && currentShip == old(currentShip) && currentShield == old(currentShield)
      ensures ok ==> inventory == Debit(old(inventory), RecipeFor(category, name).value)
      ensures ok && category == Weapons ==>
        currentWeapon == name && stats == old(stats)
        && currentShip == old(currentShip) && currentShield == old(currentShield)
      ensures ok && category == Ships ==>
        currentShip == name && stats == SwapShip(old(stats), Ship(name).value)
        && currentWeapon == old(currentWeapon) && currentShield == old(currentShield)
      ensures ok && category == Shields ==>
        currentShield == name && stats == SwapShield(old(stats), Shield(name).value)
        && currentWeapon == old(currentWeapon) && currentShip == old(currentShip)
    {
      var found := RecipeFor(category, name);
      if found.None? {
        return false;
      }
      var recipe := found.value;
      ok := HasMaterials(inventory, recipe);
      if !ok {
        return;
      }
      DebitExact(inventory, category, name);
      inventory := PayFor(inventory, recipe);
      match category {
        case Weapons =>
          currentWeapon := name;
        case Ships =>
          currentShip := name;
          var ship := Ship(name).value;
          var speedUpgrades := stats.speed - 150;
          stats := stats.(maxHealth := ship.health, health := MinR(stats.health, ship.health as real),
                          baseSpeed := ship.speed, speed := ship.speed + speedUpgrades);
        case Shields =>
          currentShield := name;
          var shield := Shield(name).value;
          stats := stats.(maxShield := shield.capacity, shield := shield.capacity as real);
      }
    }

    /**
      Buys an upgrade for `cost` tokens: refused, changing nothing, when the
      tokens fall short; otherwise the tokens drop by exactly `cost` and the
      named stat rises. An unknown stat name is still paid for.
    */
    method UpgradeStat(stat: string, cost: int) returns (ok: bool)
      requires Stocked() && Fit()
      modifies this`inventory, this`stats
      ensures Stocked() && Fit()
      ensures ok <==> old(inventory)[Tokens] >= cost
      ensures !ok ==> inventory == old(inventory) && stats == old(stats)
      ensures ok ==> inventory == old(inventory)[Tokens := old(inventory)[Tokens] - cost]
      ensures ok ==> stats == Upgraded(old(stats), stat)
    {
      if inventory[Tokens] < cost {
        return false;
      }
      inventory := inventory[Tokens := inventory[Tokens] - cost];
      if stat == "speed" {
        stats := stats.(speed := stats.speed + 30);
      } else if stat == "fireRate" {
        stats := stats.(fireRate := stats.fireRate + 2);
      } else if stat == "health" {
        stats := stats.(maxHealth := stats.maxHealth + 25, health := stats.health + 25.0);
      }
      ok := true;
    }

    /** The prices the shop offers for the current stats. */
    method ShopOffer() returns (p: Prices)
      ensures p == ShopPrices(stats)
    {
      var speedUpgrades := (stats.speed - stats.baseSpeed) / 30;
      var fireRateUpgrades := (stats.fireRate - stats.baseFireRate) / 2;
      var healthUpgrades := (stats.maxHealth - 100) / 25;
      p := Prices(10 + speedUpgrades * 5, 15 + fireRateUpgrades * 5, 20 + healthUpgrades * 5);
    }

    // -------------------------------------------------------------------
    // Restart

    /**
      Starts a new game: level 1, in play, every collection and counter
      emptied, speed and fire rate back to their baselines, health and
      shield full. Inventory, equipment, maxima, mode, spawn intervals and
      spawn times are kept.
    */
    method Reset()
      requires Valid()
      modifies this`level, this`state, this`bullets, this`targets, this`pairs, this`obstacles,
        this`items, this`particles, this`score, this`hits, this`misses, this`time, this`stats
      ensures Valid()
      ensures level == 1 && state == Playing && time == 0.0
      ensures bullets == [] && targets == [] && pairs == [] && obstacles == [] && items == [] && particles == []
      ensures score == 0 && hits == 0 && misses == 0
      ensures stats == Restarted(old(stats))
    {
      RestartClock();
      ClearEntities();
      RestoreStats();
    }

    /** Level 1, in play, the clock and every counter back to zero. */
    method RestartClock()
      modifies this`level, this`state, this`score, this`hits, this`misses, this`time
      ensures Clocked() && Tallied()
      ensures level == 1 && state == Playing && time == 0.0 && score == 0 && hits == 0 && misses == 0
    {
      level := 1;
      state := Playing;
      score, hits, misses, time := 0, 0, 0, 0.0;
    }

    /** Every bullet, target, pair, obstacle, item and particle removed. */
    method ClearEntities()
      modifies this`bullets, this`targets, this`pairs, this`obstacles, this`items, this`particles
      ensures Hazards()
      ensures bullets == [] && targets == [] && pairs == [] && obstacles == [] && items == [] && particles == []
    {
      bullets, targets, pairs, obstacles, items, particles := [], [], [], [], [], [];
    }

    /** Speed and fire rate back to their baselines, health and shield refilled. */
    method RestoreStats()
      requires Fit()
      modifies this`stats
      ensures Fit()
      ensures stats == Restarted(old(stats))
    {
      stats := stats.(speed := stats.baseSpeed, fireRate := stats.baseFireRate,
                      health := stats.maxHealth as real, shield := stats.maxShield as real);
    }

    // -------------------------------------------------------------------
    // Spawning

    /** Adds one target, or one pair in pair mode; nothing while the canvas has no area. */
    method SpawnTarget(d: SpawnDraw)
      modifies this`targets, this`pairs
      ensures width == 0 || height == 0 ==> targets == old(targets) && pairs == old(pairs)
      ensures width != 0 && height != 0 && mode == Bell ==>
        pairs == old(pairs) + [NewPair(d, width, height)] && targets == old(targets)
      ensures width != 0 && height != 0 && mode != Bell ==>
        targets == old(targets) + [NewTarget(d, width, height)] && pairs == old(pairs)
    {
      if width == 0 || height == 0 {
        return;
      }
      if mode == Bell {
        pairs := pairs + [NewPair(d, width, height)];
      } else {
        targets := targets + [NewTarget(d, width, height)];
      }
    }

    /** The opening wave: 3 + level targets (or pairs), one draw each. */
    method SpawnInitialTargets(draws: nat -> SpawnDraw)
      requires Clocked()
      modifies this`targets, this`pairs
      ensures width == 0 || height == 0 ==> targets == old(targets) && pairs == old(pairs)
      ensures width != 0 && height != 0 && mode == Bell ==>
        pairs == old(pairs) + PairWave(draws, 3 + level, width, height) && targets == old(targets)
      ensures width != 0 && height != 0 && mode != Bell ==>
        targets == old(targets) + TargetWave(draws, 3 + level, width, height) && pairs == old(pairs)
    {
      var i := 0;
      while i < 3 + level
        invariant 0 <= i <= 3 + level
        invariant width == 0 || height == 0 ==> targets == old(targets) && pairs == old(pairs)
        invariant width != 0 && height != 0 && mode == Bell ==>
          pairs == old(pairs) + PairWave(draws, i, width, height) && targets == old(targets)
        invariant width != 0 && height != 0 && mode != Bell ==>
          targets == old(targets) + TargetWave(draws, i, width, height) && pairs == old(pairs)
      {
        SpawnTarget(draws(i));
        assert PairWave(draws, i + 1, width, height) == PairWave(draws, i, width, height) + [NewPair(draws(i), width, height)];
        assert TargetWave(draws, i + 1, width, height) == TargetWave(draws, i, width, height) + [NewTarget(draws(i), width, height)];
        i := i + 1;
      }
    }

    /** Adds one obstacle of the current level; nothing while the canvas has no width. */
    method SpawnObstacle(d: ObstacleDraw)
      requires Clocked() && Hazards()
      modifies this`obstacles
      ensures Hazards()
      ensures width == 0 ==> obstacles == old(obstacles)
      ensures width != 0 ==> obstacles == old(obstacles) + [NewObstacle(d, width, height, level)]
    {
      if width == 0 {
        return;
      }
      ObstaclesScaleWithLevel(1, level);
      obstacles := obstacles + [NewObstacle(d, width, height, level)];
    }

    // -------------------------------------------------------------------
    // Shooting and kills

    /**
      Fires a volley at wall-clock time `now` (milliseconds) when the
      cooldown of the effective fire rate has passed; an automatic weapon
      also needs the button held. A volley stamps the shot time.
    */
    method Shoot(now: int, mouseDown: bool, aim: nat -> Velocity)
      requires Equipped()
      modifies this`player, this`bullets
      ensures var w := Weapon(currentWeapon).value;
        var fires := Fires(w, stats, now - old(player).lastShot, mouseDown);
        && (fires ==> player == old(player).(lastShot := now) && bullets == old(bullets) + Volley(old(player), w, aim))
        && (!fires ==> player == old(player) && bullets == old(bullets))
    {
      var weapon := Weapon(currentWeapon).value;
      var rate := weapon.fireRate + (stats.fireRate - stats.baseFireRate);
      if weapon.automatic && !mouseDown {
        return;
      }
      if !CooldownOver(now - player.lastShot, rate) {
        return;
      }
      var p := player;
      var n := if weapon.spread > 0 then weapon.spread else 1;
      var fired: seq<Bullet> := [];
      var i := 0;
      while i < n
        invariant 0 <= i <= n
        invariant fired == Volley(p, weapon, aim)[..i]
      {
        fired := fired + [Bullet(p.x, p.y, aim(i).vx, aim(i).vy, 5.0, weapon.damage, 2.0)];
        i := i + 1;
      }
      player := p.(lastShot := now);
      bullets := bullets + fired;
    }

    // -------------------------------------------------------------------
    // One animation frame

    /** The clock advances and the level follows it, retuning the spawn intervals when it rises. */
    method AdvanceClock(dt: real)
      requires Clocked() && Paced() && dt >= 0.0
      modifies this`time, this`level, this`targetSpawnRate, this`obstacleSpawnRate
      ensures Clocked() && Paced()
      ensures time == old(time) + dt && level == LevelAt(time) && old(level) <= level
      ensures level > old(level) ==>
        targetSpawnRate == TargetSpawnInterval(level) && obstacleSpawnRate == ObstacleSpawnInterval(level)
      ensures level == old(level) ==>
        targetSpawnRate == old(targetSpawnRate) && obstacleSpawnRate == old(obstacleSpawnRate)
    {
      LevelAtMonotone(time, time + dt);
      time := time + dt;
      var newLevel := (time / 30.0).Floor + 1;
      if newLevel > level {
        level := newLevel;
        targetSpawnRate := Max(500, 2000 - level * 100);
        obstacleSpawnRate := Max(1000, 3000 - level * 150);
      }
    }

    /**
      The player moves at the ship's speed plus the bought speed upgrades
      along the held directions, then is clamped to stay a body's size
      inside the canvas.
    */
    method MovePlayer(dt: real, ctl: Controls)
      requires Equipped()
      modifies this`player
      ensures player == Steered(old(player), Travel(TopSpeed(Ship(currentShip).value, stats), dt), ctl, width, height)
    {
      var totalSpeed := TopSpeed(Ship(currentShip).value, stats);
      player := Steered(player, Travel(totalSpeed, dt), ctl, width, height);
    }

    /** The equipped shield regenerates towards its capacity. */
    method RegenerateShield(dt: real)
      requires Fit() && Equipped() && dt >= 0.0
      modifies this`stats
      ensures Fit()
      ensures stats == old(stats).(shield := RegenShield(old(stats).shield, old(stats).maxShield as real,
                                                         Shield(currentShield).value.regen, dt))
    {
      var shield := Shield(currentShield).value;
      if stats.shield < stats.maxShield as real {
        stats := stats.(shield := MinR(stats.maxShield as real, stats.shield + shield.regen as real * dt));
      }
    }

    /**
      The bullet phase. Each bullet moves and ages; the first target it
      touches (the first pair, in pair mode) is killed, whole pairs at once,
      and the kill scores 10, counts a hit, credits the level's token reward,
      may drop an item and explodes; a bullet that leaves the canvas with
      lifetime left counts a miss; the rest fly on. Kills leave targets in
      place with health 0, and hit tests ignore health, so every bullet's
      fate depends only on the frame's starting targets.
    */
    method UpdateBullets(dt: real, drops: nat -> DropRoll)
      requires Stocked() && Tallied() && Clocked()
      requires forall n :: Unit(drops(n).pick)
      modifies this`bullets, this`targets, this`pairs, this`items, this`inventory, this`particles,
        this`score, this`hits, this`misses
      ensures Stocked() && Tallied()
      ensures var st := FlyAll(old(Arena(TickOf(dt), mode, targets, pairs)), old(bullets), drops);
        && bullets == st.kept && targets == st.targets && pairs == st.pairs
        && items == old(items) + st.loot && particles == old(particles) + st.sparks
        && hits == old(hits) + st.kills && score == old(score) + 10 * st.kills
        && misses == old(misses) + st.misses
        && inventory == old(inventory)[Tokens := old(inventory)[Tokens] + st.kills * TokenDrop(level)]
      ensures old(inventory)[Tokens] <= inventory[Tokens]
    {
      var kills, missed := ResolveBullets(dt, drops);
      Tally(kills, missed);
    }

    /** The bullet phase's entity updates: bullets fly, targets and pairs die, loot drops, kills explode. */
    method ResolveBullets(dt: real, drops: nat -> DropRoll) returns (kills: nat, missed: nat)
      requires forall n :: Unit(drops(n).pick)
      modifies this`bullets, this`targets, this`pairs, this`items, this`particles
      ensures var st := FlyAll(old(Arena(TickOf(dt), mode, targets, pairs)), old(bullets), drops);
        && bullets == st.kept && targets == st.targets && pairs == st.pairs
        && items == old(items) + st.loot && particles == old(particles) + st.sparks
        && kills == st.kills && missed == st.misses
    {
      var st := FlyBullets(Arena(TickOf(dt), mode, targets, pairs), bullets, drops);
      bullets, targets, pairs, kills, missed := st.kept, st.targets, st.pairs, st.kills, st.misses;
      items, particles := items + st.loot, particles + st.sparks;
    }

    /** The bullet phase's counters: 10 points, a hit and the level's token reward per kill, and the misses. */
    method Tally(kills: nat, missed: nat)
      requires Stocked() && Tallied() && Clocked()
      modifies this`score, this`hits, this`misses, this`inventory
      ensures Stocked() && Tallied()
      ensures hits == old(hits) + kills && misses == old(misses) + missed && score == old(score) + 10 * kills
      ensures inventory == old(inventory)[Tokens := old(inventory)[Tokens] + kills * TokenDrop(level)]
      ensures old(inventory)[Tokens] <= inventory[Tokens]
    {
      score, hits, misses := score + 10 * kills, hits + kills, misses + missed;
      inventory := inventory[Tokens := inventory[Tokens] + kills * (1 + level / 2)];
    }

    /** The target phase: targets and pairs move, and dead ones are dropped. */
    method UpdateTargets(dt: real)
      modifies this`targets, this`pairs
      ensures targets == Sweep(TickOf(dt), old(targets), MoveTarget, TargetAlive)
      ensures pairs == Sweep(TickOf(dt), old(pairs), MovePair, PairAlive)
    {
      targets := Filter(TickOf(dt), targets, MoveTarget, TargetAlive);
      pairs := Filter(TickOf(dt), pairs, MovePair, PairAlive);
    }

    /** The particle phase: particles drift and fade, and spent ones are dropped. */
    method UpdateParticles(dt: real)
      modifies this`particles
      ensures particles == Sweep(TickOf(dt), old(particles), AgeParticle, ParticleAlive)
    {
      particles := Filter(TickOf(dt), particles, AgeParticle, ParticleAlive);
    }

    /**
      The obstacle phase. Each obstacle moves; one that touches the player
      hits the shield first and then health, explodes and is neutralised,
      and a hit that leaves health at 0 ends the game. Neutralised
      obstacles and those more than 50 pixels off the canvas are dropped.
    */
    method UpdateObstacles(dt: real)
      requires Fit() && Hazards()
      modifies this`obstacles, this`stats, this`particles, this`state
      ensures Fit() && Hazards()
      ensures var c, v0 := TickOf(dt), Vitals(old(stats).shield, old(stats).health);
        && obstacles == Sweep(c, old(obstacles), MoveObstacle, ObstacleKept)
        && Vitals(stats.shield, stats.health) == Absorbed(c, v0, old(obstacles))
        && particles == old(particles) + ContactBursts(c, old(obstacles))
        && state == if Fatal(c, v0, old(obstacles)) then GameOver else old(state)
      ensures stats == old(stats).(shield := stats.shield, health := stats.health)
      ensures stats.health <= old(stats).health && stats.shield <= old(stats).shield
      ensures state != old(state) ==> stats.health == 0.0
    {
      var c, v0 := TickOf(dt), Vitals(stats.shield, stats.health);
      AbsorbedBounds(c, v0, obstacles);
      FatalIffDead(c, v0, obstacles);
      KeptObstaclesHarmless(c, obstacles);
      CollideAllMeans(c, v0, obstacles);
      var st := CollideObstacles(c, obstacles, v0);
      obstacles := st.kept;
      stats := stats.(shield := st.vitals.shield, health := st.vitals.health);
      particles := particles + st.sparks;
      if st.fatal {
        state := GameOver;
      }
    }

    /**
      The item phase. Each item drifts, slows and ages; one that touches the
      player adds one to its material's count and is removed; expired items
      are removed too.
    */
    method UpdateItems(dt: real)
      requires Stocked()
      modifies this`items, this`inventory
      ensures Stocked()
      ensures items == Sweep(TickOf(dt), old(items), MoveItem, ItemKept)
      ensures inventory.Keys == old(inventory).Keys
      ensures forall r :: r in inventory ==> inventory[r] == old(inventory)[r] + Pickups(TickOf(dt), old(items), r)
    {
      items, inventory := CollectItems(TickOf(dt), items, inventory);
    }

    /**
      A new target (or pair) once the target spawn interval has passed since
      the last one; nothing is spawned on a canvas without area.
    */
    method ScheduleTarget(now: int, sd: SpawnDraw)
      modifies this`targets, this`pairs, this`lastTargetSpawn
      ensures now - old(lastTargetSpawn) > targetSpawnRate ==>
        lastTargetSpawn == now
        && |targets| + |pairs| == |old(targets)| + |old(pairs)| + (if width == 0 || height == 0 then 0 else 1)
      ensures now - old(lastTargetSpawn) > targetSpawnRate && (width == 0 || height == 0) ==>
        targets == old(targets) && pairs == old(pairs)
      ensures now - old(lastTargetSpawn) > targetSpawnRate && width != 0 && height != 0 ==>
        if mode == Bell then pairs == old(pairs) + [NewPair(sd, width, height)] && targets == old(targets)
        else targets == old(targets) + [NewTarget(sd, width, height)] && pairs == old(pairs)
      ensures now - old(lastTargetSpawn) <= targetSpawnRate ==>
        lastTargetSpawn == old(lastTargetSpawn) && targets == old(targets) && pairs == old(pairs)
      ensures old(targets) <= targets && old(pairs) <= pairs
    {
      if now - lastTargetSpawn > targetSpawnRate {
        SpawnTarget(sd);
        lastTargetSpawn := now;
      }
    }

    /** A new obstacle once the obstacle spawn interval has passed since the last one. */
    method ScheduleObstacle(now: int, od: ObstacleDraw)
      requires Clocked() && Hazards()
      modifies this`obstacles, this`lastObstacleSpawn
      ensures Hazards()
      ensures now - old(lastObstacleSpawn) > obstacleSpawnRate ==>
        lastObstacleSpawn == now
        && obstacles == old(obstacles) + (if width == 0 then [] else [NewObstacle(od, width, height, level)])
      ensures now - old(lastObstacleSpawn) <= obstacleSpawnRate ==>
        lastObstacleSpawn == old(lastObstacleSpawn) && obstacles == old(obstacles)
    {
      if now - lastObstacleSpawn > obstacleSpawnRate {
        SpawnObstacle(od);
        lastObstacleSpawn := now;
      }
    }

    /** New targets and obstacles once their spawn intervals have passed since the last spawn. */
    method SpawnOnSchedule(now: int, sd: SpawnDraw, od: ObstacleDraw)
      requires Valid()
      modifies this`targets, this`pairs, this`obstacles, this`lastTargetSpawn, this`lastObstacleSpawn
      ensures Valid()
    {
      ScheduleTarget(now, sd);
      ScheduleObstacle(now, od);
    }

    /**
      The first part of a frame in play: automatic fire while the mouse button is
      held, the clock and level, movement and shield regeneration. Of the
      stat block only the shield changes.
    */
    method ControlPhase(dt: real, now: int, ctl: Controls, aim: nat -> Velocity)
      requires Equipped() && Clocked() && Paced() && Fit() && dt >= 0.0
      modifies this`player, this`bullets, this`time, this`level, this`targetSpawnRate,
               this`obstacleSpawnRate, this`stats
      ensures Clocked() && Paced() && Fit()
      ensures time == old(time) + dt && old(level) <= level
      ensures stats == old(stats).(shield := stats.shield)
    {
      if ctl.mouseDown && Weapon(currentWeapon).value.automatic {
        Shoot(now, ctl.mouseDown, aim);
      }
      AdvanceClock(dt);
      MovePlayer(dt, ctl);
      RegenerateShield(dt);
    }

    /** The bullet phase as the rest of the frame sees it: kills only add to the score, hits, misses and tokens. */
    method ShotPhase(dt: real, drops: nat -> DropRoll)
      requires Stocked() && Tallied() && Clocked()
      requires forall n :: Unit(drops(n).pick)
      modifies this`bullets, this`targets, this`pairs, this`items, this`inventory, this`particles,
        this`score, this`hits, this`misses
      ensures Stocked() && Tallied()
      ensures old(hits) <= hits && old(misses) <= misses && old(inventory)[Tokens] <= inventory[Tokens]
    {
      UpdateBullets(dt, drops);
    }

    /**
      Targets and pairs, obstacles, items and particles: of the stat block
      only health and shield change, health only downwards, and the game
      ends only when health reaches 0; pickups only add to the inventory.
    */
    method HazardPhase(dt: real)
      requires Stocked() && Fit() && Hazards()
      modifies this`targets, this`pairs, this`obstacles, this`stats, this`particles, this`state,
               this`items, this`inventory
      ensures Stocked() && Fit() && Hazards()
      ensures old(inventory)[Tokens] <= inventory[Tokens]
      ensures stats == old(stats).(shield := stats.shield, health := stats.health)
      ensures stats.health <= old(stats).health
      ensures state != old(state) ==> state == GameOver && stats.health == 0.0
    {
      CombatPhase(dt);
      PickupPhase(dt);
    }

    /**
      Targets, pairs and obstacles: of the stat block only health and shield
      change, health only downwards, and the game ends only when health
      reaches 0.
    */
    method CombatPhase(dt: real)
      requires Fit() && Hazards()
      modifies this`targets, this`pairs, this`obstacles, this`stats, this`particles, this`state
      ensures Fit() && Hazards()
      ensures stats == old(stats).(shield := stats.shield, health := stats.health)
      ensures stats.health <= old(stats).health
      ensures state != old(state) ==> state == GameOver && stats.health == 0.0
    {
      UpdateTargets(dt);
      UpdateObstacles(dt);
    }

    /** Items and particles: pickups only add to the inventory. */
    method PickupPhase(dt: real)
      requires Stocked()
      modifies this`items, this`inventory, this`particles
      ensures Stocked()
      ensures old(inventory)[Tokens] <= inventory[Tokens]
    {
      UpdateItems(dt);
      UpdateParticles(dt);
    }

    /**
      The second part: bullets, targets and pairs, obstacles, items and
      particles. Kills only add to the score, hits and tokens; of the stat
      block only health and shield change, and only downwards for health;
      the game ends only when health reaches 0.
    */
    method EntityPhase(dt: real, drops: nat -> DropRoll)
      requires Valid()
      requires forall n :: Unit(drops(n).pick)
      modifies this`bullets, this`targets, this`pairs, this`items, this`inventory, this`particles,
               this`score, this`hits, this`misses, this`obstacles, this`stats, this`state
      ensures Valid()
      ensures old(hits) <= hits && old(misses) <= misses
      ensures old(inventory)[Tokens] <= inventory[Tokens]
      ensures stats == old(stats).(shield := stats.shield, health := stats.health)
      ensures stats.health <= old(stats).health
      ensures state != old(state) ==> state == GameOver && stats.health == 0.0
    {
      ShotPhase(dt, drops);
      HazardPhase(dt);
    }

    /**
      A frame in play: automatic fire, clock and level, movement, shield
      regeneration, bullets, targets, pairs, obstacles, items, particles and
      spawning, in that order. Time moves on by `dt`; the level, hits,
      misses and tokens never go down; the score stays ten points per hit;
      health never goes up; the game stays in play unless health reaches 0;
      maximum health, speed and fire rate stay as they were.
    */
    method Frame(dt: real, now: int, ctl: Controls, aim: nat -> Velocity, drops: nat -> DropRoll,
                 sd: SpawnDraw, od: ObstacleDraw)
      requires Valid() && dt >= 0.0 && state == Playing
      requires forall n :: Unit(drops(n).pick)
      modifies this
      ensures Valid()
      ensures time == old(time) + dt && old(level) <= level
      ensures old(hits) <= hits && old(misses) <= misses
      ensures score - old(score) == 10 * (hits - old(hits))
      ensures old(inventory)[Tokens] <= inventory[Tokens]
      ensures stats.health <= old(stats).health
      ensures state == Playing || (state == GameOver && stats.health == 0.0)
      ensures stats.maxHealth == old(stats).maxHealth && stats.speed == old(stats).speed
      ensures stats.fireRate == old(stats).fireRate
    {
      ControlPhase(dt, now, ctl, aim);
      EntityPhase(dt, drops);
      SpawnOnSchedule(now, sd, od);
    }

    /** One animation frame of `dt` seconds at wall-clock time `now`; nothing happens outside play. */
    method Update(dt: real, now: int, ctl: Controls, aim: nat -> Velocity, drops: nat -> DropRoll,
                  sd: SpawnDraw, od: ObstacleDraw)
      requires Valid() && dt >= 0.0
      requires forall n :: Unit(drops(n).pick)
      modifies this
      ensures Valid()
      ensures old(state) != Playing ==> unchanged(this)
      ensures old(state) == Playing ==>
        && time == old(time) + dt && old(level) <= level
        && old(hits) <= hits && old(misses) <= misses
        && score - old(score) == 10 * (hits - old(hits))
        && old(inventory)[Tokens] <= inventory[Tokens]
        && stats.health <= old(stats).health
        && (state == Playing || (state == GameOver && stats.health == 0.0))
        && stats.maxHealth == old(stats).maxHealth && stats.speed == old(stats).speed
        && stats.fireRate == old(stats).fireRate
    {
      if state == Playing {
        Frame(dt, now, ctl, aim, drops, sd, od);
      }
    }

    /**
      A key press: carries out what the key asks for in the current state.
      A restart's new wave is spawned later by the caller, as the source
      does from a timer.
    */
    method HandleKey(code: string, key: string, now: int, mouseDown: bool, aim: nat -> Velocity)
      requires Valid()
      modifies this`player, this`bullets, this`targets, this`pairs, this`obstacles, this`items,
        this`particles, this`level, this`state, this`mode, this`score, this`hits, this`misses,
        this`time, this`stats
      ensures Valid()
      ensures state == StateAfter(old(state), KeyCommand(code, key, old(state)))
      ensures KeyCommand(code, key, old(state)).SelectMode? ==> mode == KeyCommand(code, key, old(state)).mode
      ensures !KeyCommand(code, key, old(state)).SelectMode? ==> mode == old(mode)
      ensures KeyCommand(code, key, old(state)) == Fire ==>
        var w := Weapon(currentWeapon).value;
        var fires := Fires(w, stats, now - old(player).lastShot, mouseDown);
        && (fires ==> player == old(player).(lastShot := now) && bullets == old(bullets) + Volley(old(player), w, aim))
        && (!fires ==> player == old(player) && bullets == old(bullets))
      ensures KeyCommand(code, key, old(state)) != Fire ==> player == old(player)
      ensures KeyCommand(code, key, old(state)) == Restart ==>
        && level == 1 && score == 0 && hits == 0 && misses == 0 && time == 0.0
        && bullets == [] && targets == [] && pairs == [] && obstacles == [] && items == [] && particles == []
        && stats == Restarted(old(stats))
      ensures KeyCommand(code, key, old(state)) != Restart ==>
        && score == old(score) && level == old(level) && hits == old(hits) && misses == old(misses)
        && time == old(time) && stats == old(stats)
        && targets == old(targets) && pairs == old(pairs) && obstacles == old(obstacles)
        && items == old(items) && particles == old(particles)
      ensures KeyCommand(code, key, old(state)) !in {Fire, Restart} ==> bullets == old(bullets)
    {
      match KeyCommand(code, key, state) {
        case Fire => Shoot(now, mouseDown, aim);
        case Restart => Reset();
        case SelectMode(m) => SetMode(m);
        case ToggleCrafting => ToggleCrafting();
        case ToggleShop => ToggleShop();
        case ToggleLeaderboard => ToggleLeaderboard();
        case NoCommand =>
      }
    }

    // -------------------------------------------------------------------
    // Local leaderboard

    /**
      Records the result in the local leaderboard: the player's entry is
      upserted keeping the better score and level, the list is sorted by
      rank and cut to the ten best.
    */
    method SubmitScoreLocal(date: string)
      modifies this`leaderboard
      ensures leaderboard == Take(SortByRank(MergeBest(old(leaderboard), playerName, score, level, date)), 10)
    {
      var k := FindByName(leaderboard, playerName);
      var entry := Entry(playerName,
                         Max(score, if k >= 0 then leaderboard[k].score else 0),
                         Max(level, if k >= 0 then leaderboard[k].level else 0),
                         date);
      var board := if k >= 0 then leaderboard[k := entry] else leaderboard + [entry];
      var a := new Entry[|board|](j requires 0 <= j < |board| => board[j]);
      assert a[..] == board;
      SortLeaderboard(a);
      leaderboard := if a.Length <= 10 then a[..] else a[..10];
    }
  }

  /** One item of the item loop: it moves, and on contact it is collected and credited. */
  method PickUp(c: Tick, it0: Item, inv0: Inventory) returns (it: Item, inv: Inventory)
    requires InventoryValid(inv0)
    ensures it == MoveItem(c, it0)
    ensures InventoryValid(inv) && inv.Keys == inv0.Keys
    ensures forall r :: r in inv ==> inv[r] == inv0[r] + (if ItemContact(c, it0) && it0.kind == r then 1 else 0)
  {
    it, inv := MovedItem(c, it0), inv0;
    if ItemContact(c, it0) {
      assert it0.kind in AllResources by {
        match it0.kind {
          case QuantumParticles => case EnergyCores => case MetalScraps => case Crystals => case Tokens =>
        }
      }
      inv := inv[it0.kind := inv[it0.kind] + 1];
      it := it.(collected := true);
    }
  }

  /**
    The item loop on values: each item moves, one touching the player adds
    one to its material's counter and is marked collected, and the items
    neither collected nor expired are kept in order.
  */
  method CollectItems(c: Tick, its: seq<Item>, inv0: Inventory) returns (kept: seq<Item>, inv: Inventory)
    requires InventoryValid(inv0)
    ensures kept == Sweep(c, its, MoveItem, ItemKept)
    ensures InventoryValid(inv) && inv.Keys == inv0.Keys
    ensures forall r :: r in inv ==> inv[r] == inv0[r] + Pickups(c, its, r)
  {
    kept, inv := [], inv0;
    var i := 0;
    while i < |its|
      invariant 0 <= i <= |its|
      invariant kept == Sweep(c, its[..i], MoveItem, ItemKept)
      invariant InventoryValid(inv)
      invariant forall r :: r in inv ==> inv[r] == inv0[r] + Pickups(c, its[..i], r)
    {
      SweepStep(c, its, MoveItem, ItemKept, i);
      forall r | r in inv {
        PickupsStep(c, its, r, i);
      }
      var it;
      it, inv := PickUp(c, its[i], inv);
      if ItemKept(c, it) {
        kept := kept + [it];
      }
      i := i + 1;
    }
    assert its[..|its|] == its;
  }

  // ---------------------------------------------------------------------
  // The loops of the game object, on values

  /** The materials check of crafting: every material the recipe names is in stock. */
  method HasMaterials(inv: Inventory, recipe: Recipe) returns (ok: bool)
    requires recipe.Keys <= inv.Keys
    ensures ok <==> Affordable(inv, recipe)
  {
    var pending := recipe.Keys;
    while pending != {}
      invariant pending <= recipe.Keys
      invariant forall m :: m in recipe && m !in pending ==> inv[m] >= recipe[m]
      decreases |pending|
    {
      var m :| m in pending;
      if inv[m] < recipe[m] {
        return false;
      }
      pending := pending - {m};
    }
    return true;
  }

  /** The payment of crafting: each material the recipe names is taken from the inventory. */
  method PayFor(inv: Inventory, recipe: Recipe) returns (r: Inventory)
    requires recipe.Keys <= inv.Keys
    ensures r == Debit(inv, recipe)
  {
    r := inv;
    var owed := recipe.Keys;
    while owed != {}
      invariant owed <= recipe.Keys
      invariant r.Keys == inv.Keys
      invariant forall m :: m in r ==> r[m] == if m in recipe && m !in owed then inv[m] - recipe[m] else inv[m]
      decreases |owed|
    {
      var m :| m in owed;
      r := r[m := r[m] - recipe[m]];
      owed := owed - {m};
    }
    assert r == Debit(inv, recipe);
  }

  /** The ten particles of an explosion at (x, y). */
  method Explosion(x: real, y: real) returns (ps: seq<Particle>)
    ensures ps == Burst(x, y)
  {
    ps := [];
    var i := 0;
    while i < 10
      invariant 0 <= i <= 10
      invariant ps == Burst(x, y)[..i]
    {
      ps := ps + [Particle(x, y, 0.5, 0.5)];
      i := i + 1;
    }
  }

  /** The items this tick's kills drop, in bullet order; bullet `i` uses draw `drops(i)`. */
  function KillLoot(a: Arena, bs: seq<Bullet>, drops: nat -> DropRoll): (loot: seq<Item>)
    requires forall n :: Unit(drops(n).pick)
    ensures |loot| <= Count(a, bs, Scores)
    ensures forall it :: it in loot ==> it.kind in ItemTypes && it.kind != Tokens && !it.collected
  {
    if bs == [] then []
    else
      var i := |bs| - 1;
      var site := DropSite(a, Advance(a, bs[i]));
      KillLoot(a, bs[..i], drops)
        + (if Scores(a, bs[i]) && drops(i).chance < 0.3 then [DroppedItem(site.0, site.1, drops(i))] else [])
  }

  /**
    The bullet loop's running state: the bullets still flying, the targets
    and pairs with the kills so far, the kill and miss counts, and the loot
    and explosions of the kills so far.
  */
  datatype BulletPass = BulletPass(kept: seq<Bullet>, targets: seq<Target>, pairs: seq<Pair>,
                                   kills: nat, misses: nat, loot: seq<Item>, sparks: seq<Particle>)

  /**
    One bullet of the loop: it moves, then meets the targets and pairs as
    they are now (with this tick's earlier kills), and its fate updates
    every part of the running state.
  */
  function FlyOne(a: Arena, st: BulletPass, b0: Bullet, roll: DropRoll): BulletPass
    requires Unit(roll.pick)
  {
    var cur := a.(targets := st.targets, pairs := st.pairs);
    var b := Advance(a, b0);
    var f := FateOf(cur, b);
    var kill := f.HitTarget? || f.HitPair?;
    var drop, blast := DropSite(cur, b), BlastSite(cur, b);
    BulletPass(
      st.kept + (if f.Flying? then [b] else []),
      if f.HitTarget? then st.targets[f.k := st.targets[f.k].(health := 0)] else st.targets,
      if f.HitPair? then st.pairs[f.k := Pair(st.pairs[f.k].a.(health := 0), st.pairs[f.k].b.(health := 0))]
      else st.pairs,
      st.kills + (if kill then 1 else 0),
      st.misses + (if f.Missed? then 1 else 0),
      st.loot + (if kill && roll.chance < 0.3 then [DroppedItem(drop.0, drop.1, roll)] else []),
      st.sparks + (if kill then Burst(blast.0, blast.1) else []))
  }

  /** The loop's state after the bullets `bs`, bullet `i` using draw `drops(i)`. */
  function FlyAll(a: Arena, bs: seq<Bullet>, drops: nat -> DropRoll): BulletPass
    requires forall n :: Unit(drops(n).pick)
  {
    if bs == [] then BulletPass([], a.targets, a.pairs, 0, 0, [], [])
    else FlyOne(a, FlyAll(a, bs[..|bs| - 1], drops), bs[|bs| - 1], drops(|bs| - 1))
  }

  lemma FlyAllStep(a: Arena, bs: seq<Bullet>, drops: nat -> DropRoll, i: nat)
    requires forall n :: Unit(drops(n).pick)
    requires i < |bs|
    ensures FlyAll(a, bs[..i + 1], drops) == FlyOne(a, FlyAll(a, bs[..i], drops), bs[i], drops(i))
  {
    assert bs[..i + 1][..i] == bs[..i];
  }

  /**
    The kills so far do not change what a later bullet does: its fate, its
    drop site and its blast site against the current targets and pairs are
    those against the tick's starting ones.
  */
  lemma KillsKeepFates(a: Arena, done: seq<Bullet>, b: Bullet)
    ensures var cur := a.(targets := TargetsAfter(a, done), pairs := PairsAfter(a, done));
      && FateOf(cur, b) == FateOf(a, b)
      && DropSite(cur, b) == DropSite(a, b)
      && BlastSite(cur, b) == BlastSite(a, b)
  {
    KilledTargetsStillHit(a, done, b);
    KilledPairsStillHit(a, done, b);
    TargetsAfterKills(a, done);
    PairsAfterKills(a, done);
  }

  /**
    The loop's state is, part by part, the tick's bullet outcome: the sweep
    of the bullets in flight, the targets and pairs with exactly the kills
    of the tick, the counts of kills and misses, and the kills' loot and
    explosions. Each bullet is judged against the tick's starting targets.
  */
  lemma {:induction false} FlyAllMeans(a: Arena, bs: seq<Bullet>, drops: nat -> DropRoll)
    requires forall n :: Unit(drops(n).pick)
    ensures FlyAll(a, bs, drops)
         == BulletPass(Sweep(a, bs, Advance, InFlight), TargetsAfter(a, bs), PairsAfter(a, bs),
                       Count(a, bs, Scores), Count(a, bs, Misses), KillLoot(a, bs, drops), KillBursts(a, bs))
  {
    if bs != [] {
      var n := |bs| - 1;
      FlyAllMeans(a, bs[..n], drops);
      KillsKeepFates(a, bs[..n], Advance(a, bs[n]));
    }
  }

  /**
    One moved bullet against the targets and pairs as they are now: the
    first one it touches is killed (a whole pair at once), dropping loot and
    exploding; otherwise its position and lifetime decide between a miss,
    burning out and flying on.
  */
  method Strike(a: Arena, b: Bullet, roll: DropRoll)
    returns (fate: Fate, ts: seq<Target>, ps: seq<Pair>, loot: seq<Item>, sparks: seq<Particle>)
    requires Unit(roll.pick)
    ensures fate == FateOf(a, b)
    ensures ts == if fate.HitTarget? then a.targets[fate.k := a.targets[fate.k].(health := 0)] else a.targets
    ensures ps == if fate.HitPair? then a.pairs[fate.k := Pair(a.pairs[fate.k].a.(health := 0), a.pairs[fate.k].b.(health := 0))]
                  else a.pairs
    ensures var kill, site := fate.HitTarget? || fate.HitPair?, DropSite(a, b);
      loot == if kill && roll.chance < 0.3 then [DroppedItem(site.0, site.1, roll)] else []
    ensures var kill, site := fate.HitTarget? || fate.HitPair?, BlastSite(a, b);
      sparks == if kill then Burst(site.0, site.1) else []
  {
    ts, ps, loot, sparks := a.targets, a.pairs, [], [];
    if a.mode == Bell {
      var k := FirstPairHit(b, ps);
      if k >= 0 {
        var p := ps[k];
        var hitA := HitsTarget(b, p.a);
        ps := ps[k := Pair(p.a.(health := 0), p.b.(health := 0))];
        var x, y := if hitA then p.a.x else p.b.x, if hitA then p.a.y else p.b.y;
        if roll.chance < 0.3 {
          loot := [DroppedItem(x, y, roll)];
        }
        sparks := Explosion(b.x, b.y);
        fate := HitPair(k, hitA);
        return;
      }
    } else {
      var k := FirstTargetHit(b, ts);
      if k >= 0 {
        var t := ts[k];
        ts := ts[k := t.(health := 0)];
        if roll.chance < 0.3 {
          loot := [DroppedItem(t.x, t.y, roll)];
        }
        sparks := Explosion(t.x, t.y);
        fate := HitTarget(k);
        return;
      }
    }
    if b.x < 0.0 || b.x > a.tick.width || b.y < 0.0 || b.y > a.tick.height || b.lifetime <= 0.0 {
      fate := if b.lifetime > 0.0 then Missed else Expired;
    } else {
      fate := Flying;
    }
  }

  /** The loop body for one bullet: it moves, strikes, and its outcome is added to the running state. */
  method FlyStep(a: Arena, st: BulletPass, b0: Bullet, roll: DropRoll) returns (st': BulletPass)
    requires Unit(roll.pick)
    ensures st' == FlyOne(a, st, b0, roll)
  {
    var b := Advance(a, b0);
    var fate, ts, ps, loot, sparks := Strike(a.(targets := st.targets, pairs := st.pairs), b, roll);
    var kill := fate.HitTarget? || fate.HitPair?;
    st' := BulletPass(st.kept + (if fate.Flying? then [b] else []), ts, ps,
                      st.kills + (if kill then 1 else 0), st.misses + (if fate.Missed? then 1 else 0),
                      st.loot + loot, st.sparks + sparks);
  }

  /**
    The bullet loop on values: every bullet moves and strikes the targets
    and pairs as the earlier bullets left them; the result is the loop's
    final state.
  */
  method FlyBullets(a: Arena, bs: seq<Bullet>, drops: nat -> DropRoll) returns (st: BulletPass)
    requires forall n :: Unit(drops(n).pick)
    ensures st == FlyAll(a, bs, drops)
  {
    st := BulletPass([], a.targets, a.pairs, 0, 0, [], []);
    var i := 0;
    while i < |bs|
      invariant 0 <= i <= |bs|
      invariant st == FlyAll(a, bs[..i], drops)
    {
      st := FlyStep(a, st, bs[i], drops(i));
      FlyAllStep(a, bs, drops, i);
      i := i + 1;
    }
    assert bs[..|bs|] == bs;
  }

  /** The loop body for one obstacle: it moves, and on contact it hits, explodes and is neutralised. */
  method CollideStep(c: Tick, st: ObstaclePass, o0: Obstacle) returns (st': ObstaclePass)
    ensures st' == CollideOne(c, st, o0)
  {
    var o, v, burst, fatal := MovedObstacle(c, o0), st.vitals, [], st.fatal;
    if ObstacleContact(c, o0) {
      v := AbsorbDamage(v, o0.damage as real);
      burst := Explosion(o.x, o.y);
      o := o.(vx := 0.0, vy := 0.0, size := 0.0);
      if v.health <= 0.0 {
        fatal := true;
      }
    }
    st' := ObstaclePass(st.kept + (if ObstacleKept(c, o) then [o] else []), v, st.sparks + burst, fatal);
  }

  /**
    The obstacle loop on values: each obstacle moves; one touching the
    player hits the shield and health, explodes and is neutralised, and a
    hit that leaves health at 0 is fatal. Obstacles still on or near the
    canvas and not neutralised are kept in order.
  */
  method CollideObstacles(c: Tick, obs: seq<Obstacle>, v0: Vitals) returns (st: ObstaclePass)
    ensures st == CollideAll(c, v0, obs)
  {
    st := ObstaclePass([], v0, [], false);
    var i := 0;
    while i < |obs|
      invariant 0 <= i <= |obs|
      invariant st == CollideAll(c, v0, obs[..i])
    {
      st := CollideStep(c, st, obs[i]);
      CollideAllStep(c, v0, obs, i);
      i := i + 1;
    }
    assert obs[..|obs|] == obs;
  }
}
