/**
  The static equipment catalog of the space shooter: the five inventory
  resources, the crafting recipes and the stat tables of ships, weapons and
  shields. Fire rates are kept in tenths of a shot per second so that they
  stay integers (0.5 shots/s is 5).
*/
module Catalog {
  import opened Options

  datatype Resource = QuantumParticles | EnergyCores | MetalScraps | Crystals | Tokens

  /** Every resource the inventory keeps a counter for. */
  const AllResources: set<Resource> := {QuantumParticles, EnergyCores, MetalScraps, Crystals, Tokens}

  /** The resources a pickup can carry, in the order a drop roll indexes them. */
  const ItemTypes: seq<Resource> := [QuantumParticles, EnergyCores, MetalScraps, Crystals]

  datatype Category = Weapons | Ships | Shields

  /** Resource kind to the amount a recipe consumes. */
  type Recipe = map<Resource, nat>

  datatype ShipSpec = ShipSpec(speed: int, health: int)

  /** `spread` is the number of bullets of a fan shot; 0 means a single bullet. */
  datatype WeaponSpec = WeaponSpec(fireRate: int, damage: int, automatic: bool, spread: nat)

  datatype ShieldSpec = ShieldSpec(capacity: int, regen: int)

  /** The names the stat tables know. */
  const ShipNames: set<string> := {"basic", "fast", "tank", "agile"}
  const WeaponNames: set<string> := {"basic", "rapid", "spread", "laser", "automatic"}
  const ShieldNames: set<string> := {"none", "basic", "reinforced", "quantum"}

  function Ship(name: string): (r: Option<ShipSpec>)
    ensures r.Some? <==> name in ShipNames
    ensures r.Some? ==> r.value.speed > 0 && r.value.health > 0
  {
    if name == "basic" then Some(ShipSpec(150, 100))
    else if name == "fast" then Some(ShipSpec(200, 80))
    else if name == "tank" then Some(ShipSpec(100, 200))
    else if name == "agile" then Some(ShipSpec(180, 120))
    else None
  }

  function Weapon(name: string): (r: Option<WeaponSpec>)
    ensures r.Some? <==> name in WeaponNames
    ensures r.Some? ==> r.value.fireRate > 0 && r.value.damage > 0
  {
    if name == "basic" then Some(WeaponSpec(5, 10, false, 0))
    else if name == "rapid" then Some(WeaponSpec(10, 8, false, 0))
    else if name == "spread" then Some(WeaponSpec(4, 12, false, 3))
    else if name == "laser" then Some(WeaponSpec(3, 20, false, 0))
    else if name == "automatic" then Some(WeaponSpec(20, 7, true, 0))
    else None
  }

  function Shield(name: string): (r: Option<ShieldSpec>)
    ensures r.Some? <==> name in ShieldNames
    ensures r.Some? ==> r.value.capacity >= 0 && r.value.regen >= 0
  {
    if name == "none" then Some(ShieldSpec(0, 0))
    else if name == "basic" then Some(ShieldSpec(50, 5))
    else if name == "reinforced" then Some(ShieldSpec(100, 10))
    else if name == "quantum" then Some(ShieldSpec(150, 15))
    else None
  }

  /** True when `name` is an item of the category that has an entry in the stat tables. */
  predicate HasStats(category: Category, name: string)
  {
    match category
    case Weapons => Weapon(name).Some?
    case Ships => Ship(name).Some?
    case Shields => Shield(name).Some?
  }

  /**
    The recipe for crafting `name` in `category`, or None when there is none.
    Every recipe names an item the stat tables know, costs only the four
    materials (never tokens) and asks for a positive amount of each.
  */
  function RecipeFor(category: Category, name: string): (r: Option<Recipe>)
    ensures r.Some? ==> HasStats(category, name)
    ensures r.Some? ==> Tokens !in r.value && r.value.Keys <= AllResources
    ensures r.Some? ==> forall m :: m in r.value ==> r.value[m] > 0
  {
    match category
    case Weapons =>
      if name == "rapid" then Some(map[QuantumParticles := 5, EnergyCores := 2])
      else if name == "spread" then Some(map[QuantumParticles := 8, Crystals := 3])
      else if name == "laser" then Some(map[EnergyCores := 5, Crystals := 5])
      else if name == "automatic" then Some(map[QuantumParticles := 10, EnergyCores := 5, MetalScraps := 5])
      else None
    case Ships =>
      if name == "fast" then Some(map[MetalScraps := 10, EnergyCores := 3])
      else if name == "tank" then Some(map[MetalScraps := 15, Crystals := 5])
      else if name == "agile" then Some(map[MetalScraps := 8, EnergyCores := 5])
      else None
    case Shields =>
      if name == "basic" then Some(map[EnergyCores := 3, MetalScraps := 5])
      else if name == "reinforced" then Some(map[EnergyCores := 5, Crystals := 3])
      else if name == "quantum" then Some(map[QuantumParticles := 10, Crystals := 5])
      else None
  }
}
