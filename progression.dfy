/**
  The player's stat block and the rules that rewrite it: crafting debits,
  ship and shield swaps, shop upgrades and the restart. Health and shield
  are `real` because shield regeneration adds `regen * dt`; the rest are
  integers, the fire rate in tenths of a shot per second.
*/
module Progression {
  import opened Options
  import opened Catalog
  import opened Rules

  datatype Stats = Stats(
    health: real, maxHealth: int,
    shield: real, maxShield: int,
    speed: int, baseSpeed: int,
    fireRate: int, baseFireRate: int,
    damage: int)

  /** The stat block of a fresh game: 100 health, 50 shield, speed 150, 0.5 shots per second. */
  const InitialStats: Stats := Stats(100.0, 100, 50.0, 50, 150, 150, 5, 5, 10)

  /** Health and shield within their maxima, and the fire rate never below its baseline. */
  predicate StatsValid(s: Stats)
  {
    && 0.0 <= s.health <= s.maxHealth as real
    && 0.0 <= s.shield <= s.maxShield as real
    && s.baseFireRate <= s.fireRate
  }

  type Inventory = map<Resource, int>

  const EmptyInventory: Inventory :=
    map[QuantumParticles := 0, EnergyCores := 0, MetalScraps := 0, Crystals := 0, Tokens := 0]

  /** A counter for every resource, none of them negative. */
  predicate InventoryValid(inv: Inventory)
  {
    inv.Keys == AllResources && forall m :: m in inv ==> inv[m] >= 0
  }

  // ---------------------------------------------------------------------
  // Crafting

  /** The inventory holds at least the amount of every material the recipe asks for. */
  predicate Affordable(inv: Inventory, recipe: Recipe)
  {
    forall m :: m in recipe ==> m in inv && inv[m] >= recipe[m]
  }

  /** The inventory after paying for a recipe. */
  function Debit(inv: Inventory, recipe: Recipe): (r: Inventory)
    ensures r.Keys == inv.Keys
  {
    map m | m in inv :: if m in recipe then inv[m] - recipe[m] else inv[m]
  }

  /**
    Paying for an affordable recipe lowers each of its materials by exactly
    its cost, touches nothing else (tokens in particular), and leaves no
    counter negative.
  */
  lemma DebitExact(inv: Inventory, category: Category, name: string)
    requires InventoryValid(inv)
    requires RecipeFor(category, name).Some?
    requires Affordable(inv, RecipeFor(category, name).value)
    ensures var recipe := RecipeFor(category, name).value;
      var r := Debit(inv, recipe);
      && InventoryValid(r)
      && r[Tokens] == inv[Tokens]
      && (forall m :: m in recipe ==> r[m] == inv[m] - recipe[m] && r[m] < inv[m])
      && (forall m :: m in inv && m !in recipe ==> r[m] == inv[m])
  {
  }

  /**
    Equipping a ship: the ship's health becomes the maximum (current health
    is capped by it), its speed the baseline, and the speed upgrades carry
    over as the distance of the current speed from 150, the basic ship's speed.
  */
  function SwapShip(s: Stats, ship: ShipSpec): (r: Stats)
    ensures r.maxHealth == ship.health && r.baseSpeed == ship.speed
    ensures r.health == MinR(s.health, ship.health as real)
    ensures r.speed - r.baseSpeed == s.speed - 150
    ensures r.shield == s.shield && r.maxShield == s.maxShield && r.fireRate == s.fireRate
    ensures r.baseFireRate == s.baseFireRate && r.damage == s.damage
  {
    s.(maxHealth := ship.health,
       health := MinR(s.health, ship.health as real),
       baseSpeed := ship.speed,
       speed := ship.speed + (s.speed - 150))
  }

  /** Equipping a shield fills it to the new capacity. */
  function SwapShield(s: Stats, shield: ShieldSpec): (r: Stats)
    ensures r.maxShield == shield.capacity && r.shield == shield.capacity as real
    ensures r.health == s.health && r.maxHealth == s.maxHealth
    ensures r.speed == s.speed && r.baseSpeed == s.baseSpeed
    ensures r.fireRate == s.fireRate && r.baseFireRate == s.baseFireRate && r.damage == s.damage
  {
    s.(maxShield := shield.capacity, shield := shield.capacity as real)
  }

  /** Swapping in any catalog ship or shield keeps the stat block valid. */
  lemma SwapsKeepStatsValid(s: Stats, ship: string, shield: string)
    requires StatsValid(s)
    ensures Ship(ship).Some? ==> StatsValid(SwapShip(s, Ship(ship).value))
    ensures Shield(shield).Some? ==> StatsValid(SwapShield(s, Shield(shield).value))
  {
  }

  /**
    The ship swap measures speed upgrades from 150, not from the previous
    ship's baseline: crafting the tank twice from the start leaves speed 50,
    below the tank's baseline of 100, although no upgrade was ever sold back.
  */
  lemma TankTwiceLosesSpeed()
    ensures var tank := Ship("tank").value;
      var s := SwapShip(SwapShip(InitialStats, tank), tank);
      s.speed == 50 && s.baseSpeed == 100 && s.speed < s.baseSpeed
  {
  }

  /** With the basic ship equipped, swapping keeps every speed upgrade bought. */
  lemma SwapFromBasicKeepsUpgrades(s: Stats, ship: ShipSpec)
    requires s.baseSpeed == 150
    ensures SwapShip(s, ship).speed - SwapShip(s, ship).baseSpeed == s.speed - s.baseSpeed
  {
  }

  // ---------------------------------------------------------------------
  // Shop

  /**
    The stat block after buying `stat`: speed +30, fire rate +0.2 shots per
    second (2 tenths), or maximum and current health +25 each; an unknown
    name changes nothing.
  */
  function Upgraded(s: Stats, stat: string): (r: Stats)
    ensures StatsValid(s) ==> StatsValid(r)
    ensures stat == "speed" ==> r == s.(speed := s.speed + 30)
    ensures stat == "fireRate" ==> r == s.(fireRate := s.fireRate + 2)
    ensures stat == "health" ==> r == s.(maxHealth := s.maxHealth + 25, health := s.health + 25.0)
    ensures stat !in {"speed", "fireRate", "health"} ==> r == s
  {
    if stat == "speed" then s.(speed := s.speed + 30)
    else if stat == "fireRate" then s.(fireRate := s.fireRate + 2)
    else if stat == "health" then s.(maxHealth := s.maxHealth + 25, health := s.health + 25.0)
    else s
  }

  datatype Prices = Prices(speed: int, fireRate: int, health: int)

  /** The three prices the shop shows for the current stat block. */
  function ShopPrices(s: Stats): Prices
  {
    Prices(SpeedUpgradeCost(s.speed, s.baseSpeed),
           FireRateUpgradeCost(s.fireRate, s.baseFireRate),
           HealthUpgradeCost(s.maxHealth))
  }

  /**
    Buying an upgrade raises its own price by exactly 5 tokens and leaves
    the other two prices where they were.
  */
  lemma {:induction false} UpgradeRaisesItsPrice(s: Stats, stat: string)
    ensures var p, q := ShopPrices(s), ShopPrices(Upgraded(s, stat));
      && (stat == "speed" ==> q == p.(speed := p.speed + 5))
      && (stat == "fireRate" ==> q == p.(fireRate := p.fireRate + 5))
      && (stat == "health" ==> q == p.(health := p.health + 5))
      && (stat !in {"speed", "fireRate", "health"} ==> q == p)
  {
    UpgradeCostsRiseByFive(s.speed, s.baseSpeed, s.fireRate, s.baseFireRate, s.maxHealth);
  }

  /** Prices of a fresh game: 10, 15 and 20 tokens. */
  lemma InitialPrices()
    ensures ShopPrices(InitialStats) == Prices(10, 15, 20)
  {
  }

  // ---------------------------------------------------------------------
  // Restart

  /**
    The stat block after a restart: speed and fire rate back to their
    baselines, health and shield refilled to their maxima. The maxima and
    baselines themselves are kept.
  */
  function Restarted(s: Stats): (r: Stats)
    ensures r.speed == r.baseSpeed == s.baseSpeed
    ensures r.fireRate == r.baseFireRate == s.baseFireRate
    ensures r.health == r.maxHealth as real && r.maxHealth == s.maxHealth
    ensures r.shield == r.maxShield as real && r.maxShield == s.maxShield
    ensures r.damage == s.damage
  {
    s.(speed := s.baseSpeed, fireRate := s.baseFireRate,
       health := s.maxHealth as real, shield := s.maxShield as real)
  }

  /** Restarting twice is the same as restarting once, and a valid block stays valid. */
  lemma RestartedIdempotent(s: Stats)
    ensures Restarted(Restarted(s)) == Restarted(s)
    ensures StatsValid(s) ==> StatsValid(Restarted(s))
  {
  }
}
