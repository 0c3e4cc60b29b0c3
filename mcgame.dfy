/** The older standalone pixel game (MCgame.py): a main pixel node that
    spawns pixel ants, rocks and grass the ants strip, breadcrumbs that
    expire, a snake that drifts across a wrapping map, and the per-frame
    helpers that grow plants, regenerate rocks, buy upgrades and move the
    ants.  Objects whose fields the game updates in place are classes; the
    lists the frame helpers receive are sequences of those objects.

    The pygame clock, the mouse and `random` are parameters.  Drawing,
    logging and the frame loop of `main` are not part of this model. */
module MCGame {
  import opened Wrappers
  import opened Geometry

  /** The map is 1024 x 1024 (MAP_WIDTH, MAP_HEIGHT). */
  const MapWidth: int := 1024
  const MapHeight: int := 1024
  /** Radius within which ants notice the cursor, the snake, resources and home. */
  const AwarenessRadius: real := 50.0
  /** Breadcrumbs live 20 seconds; the clock counts milliseconds. */
  const BreadcrumbLifetime: int := 20
  const RockMineralContent: real := 10.0
  const PlantResourceContent: real := 15.0
  const RockRegeneration: real := 0.01
  /** RESOURCES_NEEDED_FOR_ANT. */
  const AntMineralsNeeded: int := 15
  const AntPlantsNeeded: int := 10
  /** A node spawns at most ten ants over its life. */
  const MaxSpawnedAnts: int := 10
  const EnergyConsumptionRate: real := 1.0
  const DaytimeCharge: real := 10.0
  const InitialEnergy: real := 50.0
  const InitialBattery: int := 50
  /** UPGRADE_COST and UPGRADE_EFFECTS. */
  const NodeUpgradeMinerals: int := 100
  const NodeUpgradePlants: int := 100
  const StorageBonus: int := 10
  const EfficiencyFactor: real := 0.8
  const BatteryBonus: int := 10
  const AntUpgradeCost: real := 50.0
  const CarryBonus: int := 5
  const DurabilityBonus: real := 1.5
  const SpeedFactor: real := 1.2
  /** Ants start with room for ten of each resource, speed 2 and 10 health. */
  const AntCarryCapacity: int := 10
  const AntSpeed: real := 2.0
  const AntHealth: real := 10.0
  const HealCost: real := 2.0
  /** One breadcrumb per ant move happens with probability 0.1. */
  const CrumbChance: real := 0.1

  // ---------------------------------------------------------------------
  // Regrowth
  // ---------------------------------------------------------------------

  datatype Biome = Forest | Desert | Rocky | Lake

  /** Plants grow twice as fast by the lake. */
  function GrowthRate(biome: Biome): (rate: real)
    ensures rate > 0.0
    ensures biome == Lake <==> rate == 0.2
  {
    if biome == Lake then 0.2 else 0.1
  }

  /** `if v < cap: v += rate; if v > cap: v = cap`: the refill both plants
      (Plant.grow) and rocks (adapt_to_environment) get each frame. */
  function Refill(v: real, rate: real, cap: real): (r: real)
    requires rate > 0.0
    ensures v >= cap ==> r == v
    ensures v < cap ==> v < r <= cap && r - v <= rate
    ensures v < cap && r < cap ==> r == v + rate
  {
    if v < cap then Min(v + rate, cap) else v
  }

  /** However many frames pass, refilling never lifts a stock over its cap
      and never lowers it. */
  lemma {:induction false} RefillBounded(v: real, rate: real, cap: real, n: nat)
    requires rate > 0.0 && v <= cap
    ensures v <= Refilled(v, rate, cap, n) <= cap
  {
    if n > 0 {
      RefillBounded(v, rate, cap, n - 1);
    }
  }

  /** `n` frames of refilling. */
  function Refilled(v: real, rate: real, cap: real, n: nat): real
    requires rate > 0.0
  {
    if n == 0 then v else Refill(Refilled(v, rate, cap, n - 1), rate, cap)
  }

  class Plant {
    const position: Point
    var resources: real

    /** Plant(position): a grass cluster holding PLANT_RESOURCE_CONTENT. */
    constructor (p: Point)
      ensures position == p && resources == PlantResourceContent
    {
      position, resources := p, PlantResourceContent;
    }

    /** grow(biome): refill at the biome's rate up to the full content. */
    method Grow(biome: Biome)
      modifies this
      ensures resources == Refill(old(resources), GrowthRate(biome), PlantResourceContent)
    {
      var rate := GrowthRate(biome);
      if resources < PlantResourceContent {
        resources := resources + rate;
        if resources > PlantResourceContent {
          resources := PlantResourceContent;
        }
      }
    }
  }

  class Rock {
    const position: Point
    var minerals: real

    /** Rock(position): ROCK_MINERAL_CONTENT minerals. */
    constructor (p: Point)
      ensures position == p && minerals == RockMineralContent
    {
      position, minerals := p, RockMineralContent;
    }

    /** The rock half of adapt_to_environment: 0.01 more minerals a frame,
        up to the full content. */
    method Regenerate()
      modifies this
      ensures minerals == Refill(old(minerals), RockRegeneration, RockMineralContent)
    {
      if minerals < RockMineralContent {
        minerals := minerals + RockRegeneration;
        if minerals > RockMineralContent {
          minerals := RockMineralContent;
        }
      }
    }
  }

  // ---------------------------------------------------------------------
  // Breadcrumbs
  // ---------------------------------------------------------------------

  /** A breadcrumb never changes once dropped: where and when. */
  datatype Breadcrumb = Breadcrumb(position: Point, creationTime: int)

  predicate Young(b: Breadcrumb, now: int)
  {
    now - b.creationTime < BreadcrumbLifetime * 1000
  }

  /** update_breadcrumbs: keep the breadcrumbs younger than the lifetime,
      in their order. */
  function UpdateBreadcrumbs(crumbs: seq<Breadcrumb>, now: int): (kept: seq<Breadcrumb>)
    ensures |kept| <= |crumbs|
    ensures forall b :: b in kept <==> b in crumbs && Young(b, now)
  {
    if crumbs == [] then []
    else
      var rest := UpdateBreadcrumbs(crumbs[..|crumbs| - 1], now);
      var b := crumbs[|crumbs| - 1];
      assert forall c :: c in crumbs <==> c in crumbs[..|crumbs| - 1] || c == b;
      if Young(b, now) then rest + [b] else rest
  }

  /** The filter works list piece by list piece, so it keeps the order. */
  lemma {:induction false} UpdateBreadcrumbsAppend(a: seq<Breadcrumb>, b: seq<Breadcrumb>, now: int)
    ensures UpdateBreadcrumbs(a + b, now) == UpdateBreadcrumbs(a, now) + UpdateBreadcrumbs(b, now)
    decreases |b|
  {
    if b == [] {
      assert a + b == a;
    } else {
      var b' := b[..|b| - 1];
      assert (a + b)[..|a + b| - 1] == a + b';
      assert (a + b)[|a + b| - 1] == b[|b| - 1];
      UpdateBreadcrumbsAppend(a, b', now);
    }
  }

  /** Filtering twice at the same time filters nothing more. */
  lemma {:induction false} UpdateBreadcrumbsIdempotent(crumbs: seq<Breadcrumb>, now: int)
    ensures UpdateBreadcrumbs(UpdateBreadcrumbs(crumbs, now), now) == UpdateBreadcrumbs(crumbs, now)
    decreases |crumbs|
  {
    if crumbs != [] {
      var init := crumbs[..|crumbs| - 1];
      var b := crumbs[|crumbs| - 1];
      UpdateBreadcrumbsIdempotent(init, now);
      if Young(b, now) {
        UpdateBreadcrumbsAppend(UpdateBreadcrumbs(init, now), [b], now);
        assert UpdateBreadcrumbs([b], now) == [b] by {
          assert [b][..0] == [];
        }
      }
    }
  }

  // ---------------------------------------------------------------------
  // The snake
  // ---------------------------------------------------------------------

  /** Python's `%` by the map size (positive, so Dafny's `%` agrees). */
  function Wrap(v: int): (w: int)
    ensures 0 <= w < MapWidth
    ensures 0 <= v < MapWidth ==> w == v
    ensures v == MapWidth ==> w == 0
  {
    v % MapWidth
  }

  /** Wrapping before a shift changes nothing: a run of moves lands where
      the summed steps do. */
  lemma WrapShift(v: int, d: int)
    ensures Wrap(Wrap(v) + d) == Wrap(v + d)
  {
  }

  class Snake {
    var x: int
    var y: int
    const direction: (int, int)

    /** Snake(position) heading right. */
    constructor (px: int, py: int)
      ensures x == px && y == py && direction == (1, 0)
    {
      x, y := px, py;
      direction := (1, 0);
    }

    function Position(): Point
      reads this
    {
      Point(x as real, y as real)
    }

    /** move: one step along the heading, wrapping around the map edges. */
    method Move()
      modifies this
      ensures x == Wrap(old(x) + direction.0) && y == Wrap(old(y) + direction.1)
      ensures 0 <= x < MapWidth && 0 <= y < MapHeight
    {
      x := (x + direction.0) % MapWidth;
      y := (y + direction.1) % MapHeight;
    }
  }

  /** `n` moves of the snake from `v` along a step `d`. */
  function Drift(v: int, d: int, n: nat): (w: int)
    ensures 0 <= w < MapWidth
  {
    if n == 0 then Wrap(v) else Wrap(Drift(v, d, n - 1) + d)
  }

  /** `n` moves are one shift by `n * d`, wrapped once. */
  lemma {:induction false} DriftIsShift(v: int, d: int, n: nat)
    ensures Drift(v, d, n) == Wrap(v + n * d)
  {
    if n > 0 {
      DriftIsShift(v, d, n - 1);
      WrapShift(v + (n - 1) * d, d);
      assert v + (n - 1) * d + d == v + n * d;
    }
  }

  /** A full lap of the map brings the snake back to where it was. */
  lemma SnakeLap(v: int)
    requires 0 <= v < MapWidth
    ensures Drift(v, 1, MapWidth) == v
  {
    DriftIsShift(v, 1, MapWidth);
  }

  // ---------------------------------------------------------------------
  // Upgrades
  // ---------------------------------------------------------------------

  /** The upgrade names the game passes around as strings; a class that
      does not know a name ignores it. */
  datatype UpgradeKind = Storage | SpeedBoost | EnergyEfficiency | EnergyStorage
                       | CarryCapacity | Durability | HealthPoints

  /** What a node's upgrade touches: its energy, battery and minerals. */
  datatype NodeStats = NodeStats(energy: real, batteryCapacity: int, minerals: int)

  /** MainPixelNode.upgrade: storage adds ten minerals, energy efficiency
      scales the energy by 0.8, energy storage adds ten to the battery; any
      other name changes nothing. */
  function NodeUpgraded(s: NodeStats, kind: UpgradeKind): (t: NodeStats)
    ensures kind !in {Storage, EnergyEfficiency, EnergyStorage} ==> t == s
    ensures t.minerals >= s.minerals && t.batteryCapacity >= s.batteryCapacity
    ensures s.energy >= 0.0 ==> 0.0 <= t.energy <= s.energy
    ensures s.energy <= s.batteryCapacity as real && s.batteryCapacity >= 0 ==>
      t.energy <= t.batteryCapacity as real
  {
    match kind
    case Storage => s.(minerals := s.minerals + StorageBonus)
    case EnergyEfficiency => s.(energy := s.energy * EfficiencyFactor)
    case EnergyStorage => s.(batteryCapacity := s.batteryCapacity + BatteryBonus)
    case _ => s
  }

  /** What an ant's upgrade touches. */
  datatype AntStats = AntStats(carryCapacity: int, healthPoints: real, speed: real)

  /** Ant.upgrade: carry capacity adds five, health points add 1.5, speed
      boost scales the speed by 1.2; any other name (durability among them)
      changes nothing. */
  function AntUpgraded(s: AntStats, kind: UpgradeKind): (t: AntStats)
    ensures kind !in {CarryCapacity, HealthPoints, SpeedBoost} ==> t == s
    ensures t.carryCapacity >= s.carryCapacity && t.healthPoints >= s.healthPoints
    ensures s.speed >= 0.0 ==> t.speed >= s.speed
    ensures kind == HealthPoints ==> t.healthPoints == s.healthPoints + DurabilityBonus
  {
    match kind
    case CarryCapacity => s.(carryCapacity := s.carryCapacity + CarryBonus)
    case HealthPoints => s.(healthPoints := s.healthPoints + DurabilityBonus)
    case SpeedBoost => s.(speed := s.speed * SpeedFactor)
    case _ => s
  }

  // ---------------------------------------------------------------------
  // The main pixel node
  // ---------------------------------------------------------------------

  /** How many ants spawn_ants(pixels, num) adds: `min(num, 10 - spawned)`,
      none when that is not positive. */
  function SpawnQuota(num: int, spawned: int): (k: nat)
    ensures k <= num || k == 0
    ensures k == 0 || spawned + k <= MaxSpawnedAnts
    ensures num > 0 && spawned < MaxSpawnedAnts ==> k == num || spawned + k == MaxSpawnedAnts
  {
    var k := if num < MaxSpawnedAnts - spawned then num else MaxSpawnedAnts - spawned;
    if k > 0 then k else 0
  }

  /** The random offset and heading of one spawned ant. */
  datatype SpawnDraw = SpawnDraw(dx: int, dy: int, rightward: bool, downward: bool)

  /** The game's list of pixels holds the node and the ants. */
  datatype Pixel = NodePixel(node: MainPixelNode) | AntPixel(ant: Ant)

  /** Snapshots of a node's and an ant's whole state. */
  datatype NodeView = NodeView(stats: NodeStats, plants: int, spawnedAnts: int)
  datatype AntView = AntView(position: Point, direction: Point, minerals: real, plants: real, stats: AntStats)
  datatype PixelView = NodeV(node: NodeView) | AntV(ant: AntView)

  function Obj(p: Pixel): object
  {
    if p.NodePixel? then p.node else p.ant
  }

  function Objects(pixels: seq<Pixel>): set<object>
  {
    set i | 0 <= i < |pixels| :: Obj(pixels[i])
  }

  /** Every node and ant appears once in the list. */
  predicate DistinctObjects(pixels: seq<Pixel>)
  {
    forall i, j :: 0 <= i < j < |pixels| ==> Obj(pixels[i]) != Obj(pixels[j])
  }

  function Snap(p: Pixel): PixelView
    reads Obj(p)
  {
    match p
    case NodePixel(n) => NodeV(n.View())
    case AntPixel(a) => AntV(a.View())
  }

  function Snaps(pixels: seq<Pixel>): (vs: seq<PixelView>)
    reads Objects(pixels)
    ensures |vs| == |pixels| && forall i :: 0 <= i < |pixels| ==> vs[i] == Snap(pixels[i])
  {
    seq(|pixels|, i reads Objects(pixels) requires 0 <= i < |pixels| => Snap(pixels[i]))
  }

  ghost predicate NodesValid(pixels: seq<Pixel>)
    reads Objects(pixels)
  {
    forall i :: 0 <= i < |pixels| && pixels[i].NodePixel? ==> pixels[i].node.Valid()
  }

  class MainPixelNode {
    const position: Point
    var energy: real
    var batteryCapacity: int
    var minerals: int
    var plants: int
    var spawnedAnts: int

    /** MainPixelNode(position): 50 energy in a 50 battery, no resources,
        no ant spawned yet. */
    constructor (p: Point)
      ensures Valid() && position == p
      ensures energy == InitialEnergy && batteryCapacity == InitialBattery
      ensures minerals == 0 && plants == 0 && spawnedAnts == 0
    {
      position := p;
      energy, batteryCapacity := InitialEnergy, InitialBattery;
      minerals, plants, spawnedAnts := 0, 0, 0;
    }

    /** A node never spawns more than ten ants and never holds more energy
        than its battery. */
    ghost predicate Valid()
      reads this
    {
      0 <= spawnedAnts <= MaxSpawnedAnts && batteryCapacity >= InitialBattery
      && energy <= batteryCapacity as real
    }

    function Stats(): NodeStats
      reads this
    {
      NodeStats(energy, batteryCapacity, minerals)
    }

    function View(): NodeView
      reads this
    {
      NodeView(Stats(), plants, spawnedAnts)
    }

    /** has_sufficient_resources: 15 minerals and 10 plants, the cost of an
        ant (the game never asks). */
    predicate HasSufficientResources()
      reads this
    {
      minerals >= AntMineralsNeeded && plants >= AntPlantsNeeded
    }

    /** spawn_ants(pixels, num): append SpawnQuota(num, spawned) new ants
        next to the node (`draws[i]` is the i-th one's random offset and
        heading) and count them. */
    method SpawnAnts(pixels: seq<Pixel>, num: int, draws: seq<SpawnDraw>) returns (pixels': seq<Pixel>)
      requires Valid() && |draws| >= SpawnQuota(num, spawnedAnts)
      modifies this`spawnedAnts
      ensures Valid()
      ensures spawnedAnts == old(spawnedAnts) + SpawnQuota(num, old(spawnedAnts))
      ensures |pixels'| == |pixels| + SpawnQuota(num, old(spawnedAnts)) && pixels'[..|pixels|] == pixels
      ensures forall i :: |pixels| <= i < |pixels'| ==>
        pixels'[i].AntPixel? && fresh(pixels'[i].ant)
        && pixels'[i].ant.Newborn(Offset(position, draws[i - |pixels|]), draws[i - |pixels|])
    {
      var k := SpawnQuota(num, spawnedAnts);
      pixels' := pixels;
      var i := 0;
      while i < k
        invariant 0 <= i <= k && spawnedAnts == old(spawnedAnts) + i
        invariant |pixels'| == |pixels| + i && pixels'[..|pixels|] == pixels
        invariant forall j :: |pixels| <= j < |pixels'| ==>
          pixels'[j].AntPixel? && fresh(pixels'[j].ant)
          && pixels'[j].ant.Newborn(Offset(position, draws[j - |pixels|]), draws[j - |pixels|])
      {
        var d := draws[i];
        var ant := new Ant(Offset(position, d), d.rightward, d.downward);
        pixels' := pixels' + [AntPixel(ant)];
        spawnedAnts := spawnedAnts + 1;
        i := i + 1;
      }
    }

    /** update_energy: ten more by day, ENERGY_CONSUMPTION_RATE less by night,
        then capped at the battery. */
    method UpdateEnergy(isDay: bool)
      requires Valid()
      modifies this`energy
      ensures Valid()
      ensures energy == Min(old(energy) + (if isDay then DaytimeCharge else -EnergyConsumptionRate),
                            batteryCapacity as real)
      ensures isDay ==> energy >= old(energy)
      ensures !isDay ==> energy == old(energy) - EnergyConsumptionRate
    {
      if isDay {
        energy := energy + DaytimeCharge;
      } else {
        energy := energy - EnergyConsumptionRate;
      }
      energy := Min(energy, batteryCapacity as real);
    }

    /** upgrade(kind). */
    method Upgrade(kind: UpgradeKind)
      requires Valid()
      modifies this`energy, this`batteryCapacity, this`minerals
      ensures Valid()
      ensures Stats() == NodeUpgraded(old(Stats()), kind)
    {
      match kind
      case Storage =>
        minerals := minerals + StorageBonus;
      case EnergyEfficiency =>
        energy := energy * EfficiencyFactor;
      case EnergyStorage =>
        batteryCapacity := batteryCapacity + BatteryBonus;
      case _ =>
    }
  }

  /** Where a spawned ant starts: the node's position plus its offset. */
  function Offset(p: Point, d: SpawnDraw): Point
  {
    Point(p.x + d.dx as real, p.y + d.dy as real)
  }

  // ---------------------------------------------------------------------
  // Pixel ants
  // ---------------------------------------------------------------------

  /** How many healing steps heal takes: one per two plants, while the ant
      holds two plants and is below ten health. */
  function HealSteps(plants: real, health: real): (n: nat)
    ensures plants >= 0.0 ==> plants - HealCost * n as real >= 0.0
    ensures plants - HealCost * n as real < HealCost || health + n as real >= AntHealth
    ensures n > 0 ==> health < AntHealth && health + n as real < AntHealth + 1.0
    ensures health == health.Floor as real && health <= AntHealth ==> health + n as real <= AntHealth
    decreases if health < AntHealth then (AntHealth - health).Floor + 1 else 0
  {
    if plants >= HealCost && health < AntHealth then 1 + HealSteps(plants - HealCost, health + 1.0) else 0
  }

  class Ant {
    var position: Point
    var direction: Point
    var minerals: real
    var plants: real
    var carryCapacity: int
    var speed: real
    var healthPoints: real

    /** Ant(position): a random diagonal heading, nothing carried, room for
        ten of each resource, speed 2 and ten health. */
    constructor (p: Point, rightward: bool, downward: bool)
      ensures Newborn(p, SpawnDraw(0, 0, rightward, downward))
    {
      position := p;
      direction := Point(if rightward then 1.0 else -1.0, if downward then 1.0 else -1.0);
      minerals, plants := 0.0, 0.0;
      carryCapacity, speed, healthPoints := AntCarryCapacity, AntSpeed, AntHealth;
    }

    ghost predicate Newborn(p: Point, d: SpawnDraw)
      reads this
    {
      && position == p
      && direction == Point(if d.rightward then 1.0 else -1.0, if d.downward then 1.0 else -1.0)
      && minerals == 0.0 && plants == 0.0
      && carryCapacity == AntCarryCapacity && speed == AntSpeed && healthPoints == AntHealth
    }

    /** Each carried kind within the carry capacity. */
    ghost predicate Valid()
      reads this
    {
      0.0 <= minerals <= carryCapacity as real && 0.0 <= plants <= carryCapacity as real
    }

    function Stats(): AntStats
      reads this
    {
      AntStats(carryCapacity, healthPoints, speed)
    }

    function View(): AntView
      reads this
    {
      AntView(position, direction, minerals, plants, Stats())
    }

    /** perceive: turn right round when the cursor or the snake is within
        the awareness radius. */
    method Perceive(cursor: Point, snakeAt: Point)
      modifies this`direction
      ensures Within(position, cursor, AwarenessRadius) || Within(position, snakeAt, AwarenessRadius) ==>
        direction == Point(-old(direction.x), -old(direction.y))
      ensures !Within(position, cursor, AwarenessRadius) && !Within(position, snakeAt, AwarenessRadius) ==>
        direction == old(direction)
    {
      if Within(position, cursor, AwarenessRadius) || Within(position, snakeAt, AwarenessRadius) {
        direction := Point(-direction.x, -direction.y);
      }
    }

    /** heal: two plants buy one health point while the ant holds two plants
        and is below ten health. */
    method Heal()
      modifies this`plants, this`healthPoints
      ensures healthPoints == old(healthPoints) + HealSteps(old(plants), old(healthPoints)) as real
      ensures plants == old(plants) - HealCost * HealSteps(old(plants), old(healthPoints)) as real
    {
      ghost var n := HealSteps(plants, healthPoints);
      ghost var done := 0;
      while plants >= HealCost && healthPoints < AntHealth
        invariant done + HealSteps(plants, healthPoints) == n
        invariant healthPoints == old(healthPoints) + done as real
        invariant plants == old(plants) - HealCost * done as real
        decreases HealSteps(plants, healthPoints)
      {
        plants := plants - HealCost;
        healthPoints := healthPoints + 1.0;
        done := done + 1;
      }
    }

    /** The move of move_pixel_ants: a step of the ant's speed along its
        heading, clamped to the map. */
    method Advance()
      modifies this`position
      ensures position == Moved(old(View()))
    {
      var x := position.x + direction.x * speed;
      var y := position.y + direction.y * speed;
      position := Point(Clamp(x, 0.0, MapWidth as real), Clamp(y, 0.0, MapHeight as real));
    }

    /** The rock loop of move_pixel_ants: from each rock in turn that is
        within the awareness radius and not empty, take all it holds or as
        much as still fits. */
    method Mine(rocks: seq<Rock>)
      requires Valid() && Distinct(rocks)
      modifies this`minerals, rocks
      ensures Valid()
      ensures (minerals, RockMinerals(rocks)) ==
        Gather(position, old(minerals), carryCapacity, RockSpots(rocks), old(RockMinerals(rocks)))
      ensures minerals + Sum(RockMinerals(rocks)) == old(minerals + Sum(RockMinerals(rocks)))
      ensures old(minerals) <= minerals
      ensures Drained(old(RockMinerals(rocks)), RockMinerals(rocks))
    {
      MineAll(rocks);
      GatherConserves(position, old(minerals), carryCapacity, RockSpots(rocks), old(RockMinerals(rocks)));
    }

    /** The rock loop itself, rock by rock. */
    method MineAll(rocks: seq<Rock>)
      requires Valid() && Distinct(rocks)
      modifies this`minerals, rocks
      ensures Valid()
      ensures (minerals, RockMinerals(rocks)) == Gather(position, old(minerals), carryCapacity, RockSpots(rocks), old(RockMinerals(rocks)))
    {
      ghost var was := RockMinerals(rocks);
      ghost var load := minerals;
      var i := 0;
      while i < |rocks|
        invariant Mining(i, rocks, was, load)
      {
        MineOne(i, rocks, was, load);
        i := i + 1;
      }
      assert RockSpots(rocks)[..i] == RockSpots(rocks) && was[..i] == was;
      ghost var g := Gather(position, load, carryCapacity, RockSpots(rocks), was);
      forall j | 0 <= j < |rocks|
        ensures RockMinerals(rocks)[j] == g.1[j]
      {
      }
      assert RockMinerals(rocks) == g.1;
    }

    /** The rock loop after `i` rocks, which started out holding `was`. */
    ghost predicate Mining(i: nat, rocks: seq<Rock>, was: seq<real>, load: real)
      reads this, rocks
    {
      && i <= |rocks| == |was| && Distinct(rocks) && 0.0 <= load <= carryCapacity as real
      && 0.0 <= plants <= carryCapacity as real
      && var g := Gather(position, load, carryCapacity, RockSpots(rocks)[..i], was[..i]);
      && minerals == g.0
      && (forall j :: 0 <= j < i ==> rocks[j].minerals == g.1[j])
      && (forall j :: i <= j < |rocks| ==> rocks[j].minerals == was[j])
    }

    method MineOne(i: nat, rocks: seq<Rock>, ghost was: seq<real>, ghost load: real)
      requires i < |rocks| && Mining(i, rocks, was, load)
      modifies this`minerals, rocks[i]
      ensures Mining(i + 1, rocks, was, load)
    {
      ghost var prior := Gather(position, load, carryCapacity, RockSpots(rocks)[..i], was[..i]);
      ghost var taken := Take(position, minerals, carryCapacity, rocks[i].position, was[i]);
      GatherStep(position, load, carryCapacity, RockSpots(rocks), was, i);
      var rock := rocks[i];
      if Within(position, rock.position, AwarenessRadius) && rock.minerals > 0.0 {
        var c := Min(rock.minerals, carryCapacity as real - minerals);
        minerals := minerals + c;
        rock.minerals := rock.minerals - c;
      }
      forall j | 0 <= j < |rocks| && j != i
        ensures rocks[j].minerals == old(rocks[j].minerals)
      {
        assert rocks[j] != rock;
      }
    }

    /** The grass loop of move_pixel_ants, the same rule for plants. */
    method Graze(grass: seq<Plant>)
      requires Valid() && Distinct(grass)
      modifies this`plants, grass
      ensures Valid()
      ensures (plants, PlantResources(grass)) ==
        Gather(position, old(plants), carryCapacity, PlantSpots(grass), old(PlantResources(grass)))
      ensures plants + Sum(PlantResources(grass)) == old(plants + Sum(PlantResources(grass)))
      ensures old(plants) <= plants
      ensures Drained(old(PlantResources(grass)), PlantResources(grass))
    {
      GrazeAll(grass);
      GatherConserves(position, old(plants), carryCapacity, PlantSpots(grass), old(PlantResources(grass)));
    }

    /** The grass loop itself, plant by plant. */
    method GrazeAll(grass: seq<Plant>)
      requires Valid() && Distinct(grass)
      modifies this`plants, grass
      ensures Valid()
      ensures (plants, PlantResources(grass)) == Gather(position, old(plants), carryCapacity, PlantSpots(grass), old(PlantResources(grass)))
    {
      ghost var was := PlantResources(grass);
      ghost var load := plants;
      var i := 0;
      while i < |grass|
        invariant Grazing(i, grass, was, load)
      {
        GrazeOne(i, grass, was, load);
        i := i + 1;
      }
      assert PlantSpots(grass)[..i] == PlantSpots(grass) && was[..i] == was;
      ghost var g := Gather(position, load, carryCapacity, PlantSpots(grass), was);
      forall j | 0 <= j < |grass|
        ensures PlantResources(grass)[j] == g.1[j]
      {
      }
      assert PlantResources(grass) == g.1;
    }

    /** The grass loop after `i` plants, which started out holding `was`. */
    ghost predicate Grazing(i: nat, grass: seq<Plant>, was: seq<real>, load: real)
      reads this, grass
    {
      && i <= |grass| == |was| && Distinct(grass) && 0.0 <= load <= carryCapacity as real
      && 0.0 <= minerals <= carryCapacity as real
      && var g := Gather(position, load, carryCapacity, PlantSpots(grass)[..i], was[..i]);
      && plants == g.0
      && (forall j :: 0 <= j < i ==> grass[j].resources == g.1[j])
      && (forall j :: i <= j < |grass| ==> grass[j].resources == was[j])
    }

    method GrazeOne(i: nat, grass: seq<Plant>, ghost was: seq<real>, ghost load: real)
      requires i < |grass| && Grazing(i, grass, was, load)
      modifies this`plants, grass[i]
      ensures Grazing(i + 1, grass, was, load)
    {
      ghost var prior := Gather(position, load, carryCapacity, PlantSpots(grass)[..i], was[..i]);
      ghost var taken := Take(position, plants, carryCapacity, grass[i].position, was[i]);
      GatherStep(position, load, carryCapacity, PlantSpots(grass), was, i);
      var plant := grass[i];
      if Within(position, plant.position, AwarenessRadius) && plant.resources > 0.0 {
        var c := Min(plant.resources, carryCapacity as real - plants);
        plants := plants + c;
        plant.resources := plant.resources - c;
      }
      forall j | 0 <= j < |grass| && j != i
        ensures grass[j].resources == old(grass[j].resources)
      {
        assert grass[j] != plant;
      }
    }

    /** Home within the awareness radius with something carried: hand both
        loads over to the collected totals. */
    method Deliver(home: Point, collected: Collected)
      modifies this`minerals, this`plants, collected
      ensures collected.minerals + minerals == old(collected.minerals + minerals)
      ensures collected.plants + plants == old(collected.plants + plants)
      ensures if (old(minerals) > 0.0 || old(plants) > 0.0) && Within(position, home, AwarenessRadius)
        then minerals == 0.0 && plants == 0.0
        else minerals == old(minerals) && plants == old(plants)
    {
      if minerals > 0.0 || plants > 0.0 {
        if Within(position, home, AwarenessRadius) {
          collected.minerals := collected.minerals + minerals;
          collected.plants := collected.plants + plants;
          minerals := 0.0;
          plants := 0.0;
        }
      }
    }

    /** upgrade(kind). */
    method Upgrade(kind: UpgradeKind)
      modifies this`carryCapacity, this`healthPoints, this`speed
      ensures Stats() == AntUpgraded(old(Stats()), kind)
    {
      match kind
      case CarryCapacity =>
        carryCapacity := carryCapacity + CarryBonus;
      case HealthPoints =>
        healthPoints := healthPoints + DurabilityBonus;
      case SpeedBoost =>
        speed := speed * SpeedFactor;
      case _ =>
    }
  }

  // ---------------------------------------------------------------------
  // adapt_to_environment
  // ---------------------------------------------------------------------

  /** adapt_to_environment: every plant grows at the biome's rate, then
      every rock regains 0.01 minerals, both capped at their full content.
      The lists hold each node once (the game builds them from fresh
      objects). */
  method AdaptToEnvironment(rocks: seq<Rock>, grass: seq<Plant>, biome: Biome)
    requires Distinct(rocks) && Distinct(grass)
    modifies rocks, grass
    ensures forall i :: 0 <= i < |grass| ==>
      grass[i].resources == Refill(old(grass[i].resources), GrowthRate(biome), PlantResourceContent)
    ensures forall i :: 0 <= i < |rocks| ==>
      rocks[i].minerals == Refill(old(rocks[i].minerals), RockRegeneration, RockMineralContent)
  {
    GrowAll(grass, biome);
    RegenerateAll(rocks);
  }

  method GrowAll(grass: seq<Plant>, biome: Biome)
    requires Distinct(grass)
    modifies grass
    ensures forall i :: 0 <= i < |grass| ==>
      grass[i].resources == Refill(old(grass[i].resources), GrowthRate(biome), PlantResourceContent)
  {
    var i := 0;
    while i < |grass|
      invariant 0 <= i <= |grass|
      invariant forall j :: 0 <= j < i ==>
        grass[j].resources == Refill(old(grass[j].resources), GrowthRate(biome), PlantResourceContent)
      invariant forall j :: i <= j < |grass| ==> grass[j].resources == old(grass[j].resources)
    {
      grass[i].Grow(biome);
      i := i + 1;
    }
  }

  method RegenerateAll(rocks: seq<Rock>)
    requires Distinct(rocks)
    modifies rocks
    ensures forall i :: 0 <= i < |rocks| ==>
      rocks[i].minerals == Refill(old(rocks[i].minerals), RockRegeneration, RockMineralContent)
  {
    var i := 0;
    while i < |rocks|
      invariant 0 <= i <= |rocks|
      invariant forall j :: 0 <= j < i ==>
        rocks[j].minerals == Refill(old(rocks[j].minerals), RockRegeneration, RockMineralContent)
      invariant forall j :: i <= j < |rocks| ==> rocks[j].minerals == old(rocks[j].minerals)
    {
      rocks[i].Regenerate();
      i := i + 1;
    }
  }

  // ---------------------------------------------------------------------
  // The main loop's depleted nodes
  // ---------------------------------------------------------------------

  /** The elements of `xs` whose flag in `keep` is set, in order. */
  function Filtered<T>(xs: seq<T>, keep: seq<bool>): seq<T>
    requires |keep| == |xs|
  {
    if xs == [] then []
    else Filtered(xs[..|xs| - 1], keep[..|xs| - 1]) + (if keep[|xs| - 1] then [xs[|xs| - 1]] else [])
  }

  /** Filtering keeps an element exactly when some flagged position holds it,
      and never lengthens the list. */
  lemma {:induction false} FilteredSpec<T>(xs: seq<T>, keep: seq<bool>)
    requires |keep| == |xs|
    ensures |Filtered(xs, keep)| <= |xs|
    ensures forall x :: x in Filtered(xs, keep) ==> exists i :: 0 <= i < |xs| && keep[i] && xs[i] == x
    ensures forall i :: 0 <= i < |xs| && keep[i] ==> xs[i] in Filtered(xs, keep)
  {
    if xs != [] {
      var n := |xs| - 1;
      var ys, ks := xs[..n], keep[..n];
      FilteredSpec(ys, ks);
      assert Filtered(xs, keep) == Filtered(ys, ks) + (if keep[n] then [xs[n]] else []);
      forall i | 0 <= i < |xs| && keep[i]
        ensures xs[i] in Filtered(xs, keep)
      {
        if i < n {
          assert ys[i] == xs[i] && ks[i];
        }
      }
      forall x | x in Filtered(xs, keep)
        ensures exists i :: 0 <= i < |xs| && keep[i] && xs[i] == x
      {
        if x in Filtered(ys, ks) {
          var i :| 0 <= i < |ys| && ks[i] && ys[i] == x;
          assert keep[i] && xs[i] == x;
        } else {
          assert keep[n] && xs[n] == x;
        }
      }
    }
  }

  /** Without repeats, an element is kept exactly when its own flag is set. */
  lemma FilteredDistinct<T>(xs: seq<T>, keep: seq<bool>)
    requires |keep| == |xs| && Distinct(xs)
    ensures forall i :: 0 <= i < |xs| ==> (xs[i] in Filtered(xs, keep) <==> keep[i])
  {
    FilteredSpec(xs, keep);
    forall i | 0 <= i < |xs| && xs[i] in Filtered(xs, keep)
      ensures keep[i]
    {
      var k :| 0 <= k < |xs| && keep[k] && xs[k] == xs[i];
      assert k == i;
    }
  }

  /** Filtering a prefix one element longer adds that element when flagged. */
  lemma FilteredSnoc<T>(xs: seq<T>, keep: seq<bool>, i: nat)
    requires |keep| == |xs| && i < |xs|
    ensures Filtered(xs[..i + 1], keep[..i + 1]) == Filtered(xs[..i], keep[..i]) + (if keep[i] then [xs[i]] else [])
  {
    assert xs[..i + 1][..i] == xs[..i] && keep[..i + 1][..i] == keep[..i];
  }

  /** Which rocks still hold minerals. */
  function RockLive(rocks: seq<Rock>): (live: seq<bool>)
    reads rocks
    ensures |live| == |rocks| && forall i :: 0 <= i < |rocks| ==> (live[i] <==> rocks[i].minerals > 0.0)
  {
    seq(|rocks|, i reads rocks requires 0 <= i < |rocks| => rocks[i].minerals > 0.0)
  }

  /** Which grass clusters still hold resources. */
  function GrassLive(grass: seq<Plant>): (live: seq<bool>)
    reads grass
    ensures |live| == |grass| && forall i :: 0 <= i < |grass| ==> (live[i] <==> grass[i].resources > 0.0)
  {
    seq(|grass|, i reads grass requires 0 <= i < |grass| => grass[i].resources > 0.0)
  }

  /** The main loop's rock pass: each rock with no minerals left is removed,
      the others are kept in order. */
  method PruneRocks(rocks: seq<Rock>) returns (kept: seq<Rock>)
    ensures kept == Filtered(rocks, RockLive(rocks))
    ensures forall r :: r in kept <==> r in rocks && r.minerals > 0.0
  {
    kept := [];
    var i := 0;
    while i < |rocks|
      invariant 0 <= i <= |rocks|
      invariant kept == Filtered(rocks[..i], RockLive(rocks)[..i])
    {
      FilteredSnoc(rocks, RockLive(rocks), i);
      if rocks[i].minerals > 0.0 {
        kept := kept + [rocks[i]];
      }
      i := i + 1;
    }
    assert rocks[..i] == rocks && RockLive(rocks)[..i] == RockLive(rocks);
    FilteredSpec(rocks, RockLive(rocks));
  }

  /** The main loop's grass pass: a cluster with resources left grows at the
      biome's rate, one without is removed; the kept clusters stay in order. */
  method TendGrass(grass: seq<Plant>, biome: Biome) returns (kept: seq<Plant>)
    requires Distinct(grass)
    modifies grass
    ensures kept == Filtered(grass, old(GrassLive(grass)))
    ensures forall i :: 0 <= i < |grass| ==> (grass[i] in kept <==> old(grass[i].resources) > 0.0)
    ensures forall i :: 0 <= i < |grass| ==>
      grass[i].resources ==
        (if old(grass[i].resources) > 0.0 then Refill(old(grass[i].resources), GrowthRate(biome), PlantResourceContent)
         else old(grass[i].resources))
  {
    ghost var live := GrassLive(grass);
    kept := [];
    var i := 0;
    while i < |grass|
      invariant 0 <= i <= |grass|
      invariant kept == Filtered(grass[..i], live[..i])
      invariant forall j :: 0 <= j < i ==>
        grass[j].resources ==
          (if live[j] then Refill(old(grass[j].resources), GrowthRate(biome), PlantResourceContent) else old(grass[j].resources))
      invariant forall j :: i <= j < |grass| ==> grass[j].resources == old(grass[j].resources)
    {
      FilteredSnoc(grass, live, i);
      if grass[i].resources > 0.0 {
        grass[i].Grow(biome);
        kept := kept + [grass[i]];
      }
      i := i + 1;
    }
    assert grass[..i] == grass && live[..i] == live;
    FilteredDistinct(grass, live);
  }

  // ---------------------------------------------------------------------
  // handle_upgrades_and_exchanges
  // ---------------------------------------------------------------------

  /** The node's half of handle_upgrades_and_exchanges, in the source's
      order: storage at 100 minerals, the speed boost (which a node does not
      know), then energy efficiency and energy storage at 100 minerals and
      100 plants, each check reading the minerals as the previous step
      left them. */
  function NodeAutoUpgraded(s: NodeStats, plants: int): (t: NodeStats)
    ensures s.minerals < NodeUpgradeMinerals ==> t == s
    ensures s.minerals >= NodeUpgradeMinerals ==> t.minerals == s.minerals + StorageBonus
    ensures s.minerals >= NodeUpgradeMinerals && plants >= NodeUpgradePlants ==>
      t.energy == s.energy * EfficiencyFactor && t.batteryCapacity == s.batteryCapacity + BatteryBonus
    ensures plants < NodeUpgradePlants ==> t.energy == s.energy && t.batteryCapacity == s.batteryCapacity
  {
    var s1 := if s.minerals >= NodeUpgradeMinerals then NodeUpgraded(s, Storage) else s;
    var s2 := if s1.minerals >= NodeUpgradeMinerals && plants >= 50 then NodeUpgraded(s1, SpeedBoost) else s1;
    var s3 := if s2.minerals >= NodeUpgradeMinerals && plants >= NodeUpgradePlants
              then NodeUpgraded(s2, EnergyEfficiency) else s2;
    if s3.minerals >= NodeUpgradeMinerals && plants >= NodeUpgradePlants then NodeUpgraded(s3, EnergyStorage) else s3
  }

  /** The ant's half: 50 collected minerals buy a carry-capacity upgrade,
      then 50 collected plants buy the upgrade named `plantUpgrade` (see
      Exchange and ExchangeAsWritten); `minerals` and `plants` are the
      collected totals when the ant's turn comes. */
  function AntExchanged(s: AntStats, minerals: real, plants: real, plantUpgrade: UpgradeKind): (t: AntStats)
    requires PlantExchange(plantUpgrade)
    ensures t.carryCapacity == s.carryCapacity + (if minerals >= AntUpgradeCost then CarryBonus else 0)
    ensures t.speed == s.speed
    ensures plantUpgrade == HealthPoints ==>
      t.speed == s.speed && t.healthPoints == s.healthPoints + (if plants >= AntUpgradeCost then DurabilityBonus else 0.0)
    ensures plantUpgrade == Durability ==> t.healthPoints == s.healthPoints && t.speed == s.speed
  {
    var s1 := if minerals >= AntUpgradeCost then AntUpgraded(s, CarryCapacity) else s;
    if plants >= AntUpgradeCost then AntUpgraded(s1, plantUpgrade) else s1
  }

  /** One step of the collected totals: the price is taken when it can be
      paid. */
  function Debit(total: real): (r: real)
    ensures total >= AntUpgradeCost ==> r == total - AntUpgradeCost
    ensures total < AntUpgradeCost ==> r == total
  {
    if total >= AntUpgradeCost then total - AntUpgradeCost else total
  }

  /** The collected total after `n` ants have had their turn. */
  function Drain(total: real, n: nat): (r: real)
    ensures total >= 0.0 ==> r >= 0.0
    ensures r <= total
    ensures r == total - AntUpgradeCost * n as real || r < AntUpgradeCost
  {
    if n == 0 then total else Debit(Drain(total, n - 1))
  }

  /** The number of ants among the pixels. */
  function AntCount(pixels: seq<Pixel>): (n: nat)
    ensures n <= |pixels|
  {
    if pixels == [] then 0
    else AntCount(pixels[..|pixels| - 1]) + (if pixels[|pixels| - 1].AntPixel? then 1 else 0)
  }

  /** resources_collected: the game's running totals. */
  class Collected {
    var minerals: real
    var plants: real

    constructor ()
      ensures minerals == 0.0 && plants == 0.0
    {
      minerals, plants := 0.0, 0.0;
    }
  }

  /** An ant's turn in handle_upgrades_and_exchanges with the durability
      upgrade requested by the name Ant.upgrade knows, health_points: the
      ant gains 1.5 health for the 50 plants. */
  method Exchange(ant: Ant, collected: Collected)
    modifies ant`carryCapacity, ant`healthPoints, ant`speed, collected
    ensures ant.Stats() == AntExchanged(old(ant.Stats()), old(collected.minerals), old(collected.plants), HealthPoints)
    ensures collected.minerals == Debit(old(collected.minerals)) && collected.plants == Debit(old(collected.plants))
  {
    if collected.minerals >= AntUpgradeCost {
      ant.Upgrade(CarryCapacity);
      collected.minerals := collected.minerals - AntUpgradeCost;
    }
    if collected.plants >= AntUpgradeCost {
      ant.Upgrade(HealthPoints);
      collected.plants := collected.plants - AntUpgradeCost;
    }
  }

  /** The same turn as written: it requests 'durability', which Ant.upgrade
      does not know, so the 50 plants are taken and the ant gets nothing. */
  method ExchangeAsWritten(ant: Ant, collected: Collected)
    modifies ant`carryCapacity, ant`healthPoints, ant`speed, collected
    ensures ant.Stats() == AntExchanged(old(ant.Stats()), old(collected.minerals), old(collected.plants), Durability)
    ensures collected.minerals == Debit(old(collected.minerals)) && collected.plants == Debit(old(collected.plants))
  {
    if collected.minerals >= AntUpgradeCost {
      ant.Upgrade(CarryCapacity);
      collected.minerals := collected.minerals - AntUpgradeCost;
    }
    if collected.plants >= AntUpgradeCost {
      ant.Upgrade(Durability);
      collected.plants := collected.plants - AntUpgradeCost;
    }
  }

  /** As written, an ant's turn with 50 collected plants and no minerals
      spends the plants and leaves the ant exactly as it was. */
  lemma DurabilityBuysNothing(s: AntStats)
    ensures AntExchanged(s, 0.0, AntUpgradeCost, Durability) == s
    ensures Debit(AntUpgradeCost) == 0.0
  {
  }

  /** Corrected, the same turn buys the 1.5 health the durability effect
      promises. */
  lemma DurabilityBuysHealth(s: AntStats)
    ensures AntExchanged(s, 0.0, AntUpgradeCost, HealthPoints).healthPoints == s.healthPoints + DurabilityBonus
    ensures AntExchanged(s, 0.0, AntUpgradeCost, HealthPoints).(healthPoints := s.healthPoints) == s
  {
  }

  /** The node's turn. */
  method UpgradeNode(node: MainPixelNode)
    requires node.Valid()
    modifies node`energy, node`batteryCapacity, node`minerals
    ensures node.Valid()
    ensures node.Stats() == NodeAutoUpgraded(old(node.Stats()), node.plants)
  {
    if node.minerals >= NodeUpgradeMinerals {
      node.Upgrade(Storage);
    }
    if node.minerals >= NodeUpgradeMinerals && node.plants >= 50 {
      node.Upgrade(SpeedBoost);
    }
    if node.minerals >= NodeUpgradeMinerals && node.plants >= NodeUpgradePlants {
      node.Upgrade(EnergyEfficiency);
    }
    if node.minerals >= NodeUpgradeMinerals && node.plants >= NodeUpgradePlants {
      node.Upgrade(EnergyStorage);
    }
  }

  /** The upgrades an ant's plant exchange can name: `Durability` is the
      name handle_upgrades_and_exchanges passes, `HealthPoints` the one
      Ant.upgrade knows. */
  predicate PlantExchange(plantUpgrade: UpgradeKind)
  {
    plantUpgrade == HealthPoints || plantUpgrade == Durability
  }

  /** What handle_upgrades_and_exchanges did to pixel `p` from its snapshot
      `v`, when the collected totals stood at `minerals` and `plants` and the
      plant exchange named `plantUpgrade`: a node bought its upgrades, an ant
      its exchanges, and nothing else changed. */
  ghost predicate Exchanged(p: Pixel, v: PixelView, minerals: real, plants: real, plantUpgrade: UpgradeKind)
    reads Obj(p)
  {
    match p
    case NodePixel(n) =>
      v.NodeV? && n.View() == v.node.(stats := NodeAutoUpgraded(v.node.stats, v.node.plants))
    case AntPixel(a) =>
      v.AntV? && PlantExchange(plantUpgrade)
      && a.View() == v.ant.(stats := AntExchanged(v.ant.stats, minerals, plants, plantUpgrade))
  }

  /** The collected totals (minerals, plants) one pixel's turn leaves. */
  function Pay(pot: (real, real), p: Pixel): (real, real)
  {
    if p.AntPixel? then (Debit(pot.0), Debit(pot.1)) else pot
  }

  /** The collected totals before each pixel's turn, and after the last. */
  function Pots(pixels: seq<Pixel>, pot: (real, real)): (pots: seq<(real, real)>)
    ensures |pots| == |pixels| + 1 && pots[0] == pot
    ensures forall j :: 0 <= j < |pixels| ==> pots[j + 1] == Pay(pots[j], pixels[j])
  {
    if pixels == [] then [pot]
    else
      var init := Pots(pixels[..|pixels| - 1], pot);
      init + [Pay(init[|pixels| - 1], pixels[|pixels| - 1])]
  }

  /** Before pixel `j`'s turn the totals have paid for the ants before it. */
  lemma {:induction false} PotsDrain(pixels: seq<Pixel>, pot: (real, real), j: nat)
    requires j <= |pixels|
    ensures Pots(pixels, pot)[j] == (Drain(pot.0, AntCount(pixels[..j])), Drain(pot.1, AntCount(pixels[..j])))
  {
    if j > 0 {
      PotsDrain(pixels, pot, j - 1);
      assert pixels[..j][..j - 1] == pixels[..j - 1];
    }
  }

  /** handle_upgrades_and_exchanges: each pixel in turn, the node buying
      its upgrades and every ant paying 50 of each collected total while it
      lasts, so ant `i` meets the totals drained by the ants before it. The
      code as written is the instance `plantUpgrade == Durability`, in which
      no ant's health changes; `HealthPoints` is the corrected one. */
  method HandleUpgradesAndExchanges(pixels: seq<Pixel>, collected: Collected, plantUpgrade: UpgradeKind)
    requires DistinctObjects(pixels) && NodesValid(pixels) && PlantExchange(plantUpgrade)
    modifies Objects(pixels), collected
    ensures NodesValid(pixels)
    ensures collected.minerals == Drain(old(collected.minerals), AntCount(pixels))
    ensures collected.plants == Drain(old(collected.plants), AntCount(pixels))
    ensures forall i :: 0 <= i < |pixels| ==>
      Exchanged(pixels[i], old(Snap(pixels[i])),
                Drain(old(collected.minerals), AntCount(pixels[..i])), Drain(old(collected.plants), AntCount(pixels[..i])),
                plantUpgrade)
    ensures plantUpgrade == Durability ==>
      forall i :: 0 <= i < |pixels| && pixels[i].AntPixel? ==> pixels[i].ant.healthPoints == old(pixels[i].ant.healthPoints)
  {
    ghost var was := Snaps(pixels);
    ghost var pots := Pots(pixels, (collected.minerals, collected.plants));
    var i := 0;
    while i < |pixels|
      invariant Exchanging(i, pixels, was, pots, collected, plantUpgrade)
    {
      ExchangeTurn(i, pixels, collected, was, pots, plantUpgrade);
      i := i + 1;
    }
    forall j | 0 <= j <= |pixels|
      ensures pots[j] == (Drain(old(collected.minerals), AntCount(pixels[..j])), Drain(old(collected.plants), AntCount(pixels[..j])))
    {
      PotsDrain(pixels, (old(collected.minerals), old(collected.plants)), j);
    }
    assert pixels[..|pixels|] == pixels;
  }

  /** The exchange loop after `i` pixels: those have had their turn from
      their snapshots in `was`, meeting the totals in `pots`. */
  ghost predicate Exchanging(i: nat, pixels: seq<Pixel>, was: seq<PixelView>, pots: seq<(real, real)>, collected: Collected,
                            plantUpgrade: UpgradeKind)
    reads Objects(pixels), collected
  {
    && i <= |pixels| == |was| && |pots| == |pixels| + 1 && DistinctObjects(pixels) && NodesValid(pixels)
    && PlantExchange(plantUpgrade)
    && (forall j :: 0 <= j < |pixels| ==> pots[j + 1] == Pay(pots[j], pixels[j]))
    && (collected.minerals, collected.plants) == pots[i]
    && (forall j :: i <= j < |pixels| ==> Snap(pixels[j]) == was[j])
    && (forall j :: 0 <= j < i ==> Exchanged(pixels[j], was[j], pots[j].0, pots[j].1, plantUpgrade))
  }

  method ExchangeTurn(i: nat, pixels: seq<Pixel>, collected: Collected, ghost was: seq<PixelView>, ghost pots: seq<(real, real)>,
                   plantUpgrade: UpgradeKind)
    requires i < |pixels| && Exchanging(i, pixels, was, pots, collected, plantUpgrade)
    modifies Obj(pixels[i]), collected
    ensures Exchanging(i + 1, pixels, was, pots, collected, plantUpgrade)
  {
    if pixels[i].NodePixel? {
      NodeTurn(i, pixels, collected, was, pots, plantUpgrade);
    } else {
      AntTurn(i, pixels, collected, was, pots, plantUpgrade);
    }
  }

  method NodeTurn(i: nat, pixels: seq<Pixel>, collected: Collected, ghost was: seq<PixelView>, ghost pots: seq<(real, real)>,
                   plantUpgrade: UpgradeKind)
    requires i < |pixels| && pixels[i].NodePixel? && Exchanging(i, pixels, was, pots, collected, plantUpgrade)
    modifies pixels[i].node
    ensures Exchanging(i + 1, pixels, was, pots, collected, plantUpgrade)
  {
    UpgradeNode(pixels[i].node);
  }

  method AntTurn(i: nat, pixels: seq<Pixel>, collected: Collected, ghost was: seq<PixelView>, ghost pots: seq<(real, real)>,
                   plantUpgrade: UpgradeKind)
    requires i < |pixels| && pixels[i].AntPixel? && Exchanging(i, pixels, was, pots, collected, plantUpgrade)
    modifies pixels[i].ant, collected
    ensures Exchanging(i + 1, pixels, was, pots, collected, plantUpgrade)
  {
    if plantUpgrade == Durability {
      ExchangeAsWritten(pixels[i].ant, collected);
    } else {
      Exchange(pixels[i].ant, collected);
    }
  }

  // ---------------------------------------------------------------------
  // move_pixel_ants
  // ---------------------------------------------------------------------

  /** Where one move takes an ant: a step of its speed along its heading,
      clamped to the map. */
  function Moved(v: AntView): (p: Point)
    ensures 0.0 <= p.x <= MapWidth as real && 0.0 <= p.y <= MapHeight as real
    ensures var x := v.position.x + v.direction.x * v.stats.speed;
      0.0 <= x <= MapWidth as real ==> p.x == x
    ensures var y := v.position.y + v.direction.y * v.stats.speed;
      0.0 <= y <= MapHeight as real ==> p.y == y
    ensures 0.0 <= v.position.x <= MapWidth as real ==>
      Abs(p.x - v.position.x) <= Abs(v.direction.x * v.stats.speed)
    ensures 0.0 <= v.position.y <= MapHeight as real ==>
      Abs(p.y - v.position.y) <= Abs(v.direction.y * v.stats.speed)
  {
    Point(Clamp(v.position.x + v.direction.x * v.stats.speed, 0.0, MapWidth as real),
          Clamp(v.position.y + v.direction.y * v.stats.speed, 0.0, MapHeight as real))
  }

  /** The sum of a list of amounts. */
  function Sum(s: seq<real>): real
  {
    if s == [] then 0.0 else Sum(s[..|s| - 1]) + s[|s| - 1]
  }

  /** Changing one amount changes the sum by the difference. */
  lemma {:induction false} SumUpdate(s: seq<real>, k: nat, x: real)
    requires k < |s|
    ensures Sum(s[k := x]) == Sum(s) - s[k] + x
  {
    var n := |s| - 1;
    if k < n {
      SumUpdate(s[..n], k, x);
      assert s[k := x][..n] == s[..n][k := x];
    } else {
      assert s[k := x][..n] == s[..n];
    }
  }

  /** What an ant at `at`, carrying `load` with room for `cap`, takes from a
      node at `spot` holding `content`: when the node is within the
      awareness radius and not empty, all it holds or as much as fits. */
  function Take(at: Point, load: real, cap: int, spot: Point, content: real): (c: real)
    requires load <= cap as real
    ensures 0.0 <= c <= Max(content, 0.0) && load + c <= cap as real
    ensures !Within(at, spot, AwarenessRadius) || content <= 0.0 ==> c == 0.0
    ensures Within(at, spot, AwarenessRadius) && content > 0.0 ==> c == content || load + c == cap as real
  {
    if Within(at, spot, AwarenessRadius) && content > 0.0 then Min(content, cap as real - load) else 0.0
  }

  /** One ant's pass over nodes at `spots` holding `contents`, in order:
      the load it ends with and what each node is left holding.  The load
      only grows and stays within the capacity; no node gains, and none
      that held a non-negative amount goes below zero. */
  function Gather(at: Point, load: real, cap: int, spots: seq<Point>, contents: seq<real>): (r: (real, seq<real>))
    requires load <= cap as real && |spots| == |contents|
    ensures load <= r.0 <= cap as real && |r.1| == |contents|
    ensures forall j :: 0 <= j < |contents| ==> 0.0 <= contents[j] - r.1[j] <= Max(contents[j], 0.0)
  {
    if contents == [] then (load, [])
    else
      var n := |contents| - 1;
      var prior := Gather(at, load, cap, spots[..n], contents[..n]);
      var c := Take(at, prior.0, cap, spots[n], contents[n]);
      (prior.0 + c, prior.1 + [contents[n] - c])
  }

  /** The pass over the first `i + 1` nodes is the pass over the first `i`
      followed by one more take. */
  lemma GatherStep(at: Point, load: real, cap: int, spots: seq<Point>, contents: seq<real>, i: nat)
    requires load <= cap as real && |spots| == |contents| && i < |contents|
    ensures var prior := Gather(at, load, cap, spots[..i], contents[..i]);
      var c := Take(at, prior.0, cap, spots[i], contents[i]);
      Gather(at, load, cap, spots[..i + 1], contents[..i + 1]) == (prior.0 + c, prior.1 + [contents[i] - c])
  {
    assert spots[..i + 1][..i] == spots[..i] && contents[..i + 1][..i] == contents[..i];
  }

  /** Gathering moves amounts from the nodes to the ant and creates none. */
  lemma {:induction false} GatherConserves(at: Point, load: real, cap: int, spots: seq<Point>, contents: seq<real>)
    requires load <= cap as real && |spots| == |contents|
    ensures Gather(at, load, cap, spots, contents).0 + Sum(Gather(at, load, cap, spots, contents).1) == load + Sum(contents)
  {
    if contents != [] {
      var n := |contents| - 1;
      GatherConserves(at, load, cap, spots[..n], contents[..n]);
      var r := Gather(at, load, cap, spots, contents);
      assert r.1[..n] == Gather(at, load, cap, spots[..n], contents[..n]).1;
    }
  }

  /** An ant out of reach of every node takes nothing. */
  lemma {:induction false} GatherOutOfReach(at: Point, load: real, cap: int, spots: seq<Point>, contents: seq<real>)
    requires load <= cap as real && |spots| == |contents|
    requires forall j :: 0 <= j < |spots| ==> !Within(at, spots[j], AwarenessRadius)
    ensures Gather(at, load, cap, spots, contents) == (load, contents)
  {
    if contents != [] {
      var n := |contents| - 1;
      GatherOutOfReach(at, load, cap, spots[..n], contents[..n]);
      assert contents[..n] + [contents[n]] == contents;
    }
  }

  function RockSpots(rocks: seq<Rock>): seq<Point>
  {
    seq(|rocks|, j requires 0 <= j < |rocks| => rocks[j].position)
  }

  function RockMinerals(rocks: seq<Rock>): seq<real>
    reads rocks
  {
    seq(|rocks|, j requires 0 <= j < |rocks| reads rocks => rocks[j].minerals)
  }

  function PlantSpots(grass: seq<Plant>): seq<Point>
  {
    seq(|grass|, j requires 0 <= j < |grass| => grass[j].position)
  }

  function PlantResources(grass: seq<Plant>): seq<real>
    reads grass
  {
    seq(|grass|, j requires 0 <= j < |grass| reads grass => grass[j].resources)
  }

  /** Breadcrumbs that are all still young pass the filter unchanged. */
  lemma {:induction false} UpdateBreadcrumbsKeepsYoung(crumbs: seq<Breadcrumb>, now: int)
    requires forall j :: 0 <= j < |crumbs| ==> Young(crumbs[j], now)
    ensures UpdateBreadcrumbs(crumbs, now) == crumbs
  {
    if crumbs != [] {
      UpdateBreadcrumbsKeepsYoung(crumbs[..|crumbs| - 1], now);
      assert crumbs[..|crumbs| - 1] + [crumbs[|crumbs| - 1]] == crumbs;
    }
  }

  /** The breadcrumbs one call of move_pixel_ants drops: for each ant whose
      roll comes in under the 0.1 chance, one at the ant's new position,
      stamped with the current clock. */
  function Dropped(was: seq<PixelView>, rolls: seq<real>, now: int): (dropped: seq<Breadcrumb>)
    requires |rolls| == |was|
    ensures |dropped| <= |was|
    ensures forall j :: 0 <= j < |dropped| ==>
      dropped[j].creationTime == now && 0.0 <= dropped[j].position.x <= MapWidth as real
      && 0.0 <= dropped[j].position.y <= MapHeight as real
  {
    if was == [] then []
    else
      var n := |was| - 1;
      Dropped(was[..n], rolls[..n], now)
        + (if was[n].AntV? && rolls[n] < CrumbChance then [Breadcrumb(Moved(was[n].ant), now)] else [])
  }

  /** The breadcrumbs just dropped survive the next update_breadcrumbs at
      the same clock, behind whatever survives of the older ones. */
  lemma DroppedSurvive(crumbs: seq<Breadcrumb>, was: seq<PixelView>, rolls: seq<real>, now: int)
    requires |rolls| == |was|
    ensures UpdateBreadcrumbs(crumbs + Dropped(was, rolls, now), now)
         == UpdateBreadcrumbs(crumbs, now) + Dropped(was, rolls, now)
  {
    UpdateBreadcrumbsAppend(crumbs, Dropped(was, rolls, now), now);
    UpdateBreadcrumbsKeepsYoung(Dropped(was, rolls, now), now);
  }

  /** What each ant carries of one kind; the node carries nothing. */
  function CarriedMinerals(pixels: seq<Pixel>): (loads: seq<real>)
    reads Objects(pixels)
    ensures |loads| == |pixels|
  {
    seq(|pixels|, j reads Objects(pixels) requires 0 <= j < |pixels| =>
      if pixels[j].AntPixel? then pixels[j].ant.minerals else 0.0)
  }

  function CarriedPlants(pixels: seq<Pixel>): (loads: seq<real>)
    reads Objects(pixels)
    ensures |loads| == |pixels|
  {
    seq(|pixels|, j reads Objects(pixels) requires 0 <= j < |pixels| =>
      if pixels[j].AntPixel? then pixels[j].ant.plants else 0.0)
  }

  ghost predicate AntsValid(pixels: seq<Pixel>)
    reads Objects(pixels)
  {
    forall j :: 0 <= j < |pixels| && pixels[j].AntPixel? ==> pixels[j].ant.Valid()
  }

  /** What move_pixel_ants did to pixel `p` from its snapshot `v`: an ant
      has made its move, keeping its heading and its upgrades, and still
      carries no more than it can; the node is as it was. */
  ghost predicate MovedOn(p: Pixel, v: PixelView)
    reads Obj(p)
  {
    match p
    case NodePixel(n) => v == NodeV(n.View())
    case AntPixel(a) =>
      v.AntV? && a.position == Moved(v.ant) && a.direction == v.ant.direction && a.Stats() == v.ant.stats && a.Valid()
  }

  /** How much of a kind a node gave up, from `was` to `now`: nothing
      negative, and no more than it held. */
  predicate Depleted(was: real, now: real)
  {
    0.0 <= was - now <= Max(was, 0.0)
  }

  /** Every node of a list gave up some of what it held, and no more. */
  predicate Drained(was: seq<real>, now: seq<real>)
  {
    |was| == |now| && forall j :: 0 <= j < |was| ==> Depleted(was[j], now[j])
  }

  /** Draining twice is draining. */
  lemma DrainedTwice(was: seq<real>, mid: seq<real>, now: seq<real>)
    requires Drained(was, mid) && Drained(mid, now)
    ensures Drained(was, now)
  {
  }

  /** One ant's part of move_pixel_ants: the move, the rock loop, the grass
      loop and the delivery home.  Minerals and plants only change hands. */
  method MoveAnt(ant: Ant, home: Point, rocks: seq<Rock>, grass: seq<Plant>, collected: Collected)
    requires ant.Valid() && Distinct(rocks) && Distinct(grass)
    modifies ant`position, ant`minerals, ant`plants, rocks, grass, collected
    ensures ant.Valid() && ant.position == Moved(old(ant.View()))
    ensures collected.minerals + ant.minerals + Sum(RockMinerals(rocks))
         == old(collected.minerals + ant.minerals + Sum(RockMinerals(rocks)))
    ensures collected.plants + ant.plants + Sum(PlantResources(grass))
         == old(collected.plants + ant.plants + Sum(PlantResources(grass)))
    ensures old(collected.minerals) <= collected.minerals && old(collected.plants) <= collected.plants
    ensures Drained(old(RockMinerals(rocks)), RockMinerals(rocks))
    ensures Drained(old(PlantResources(grass)), PlantResources(grass))
    ensures Gathered(ant.position, ant.carryCapacity, home, RockSpots(rocks), PlantSpots(grass),
                     old(Haul(ant.minerals, ant.plants, RockMinerals(rocks), PlantResources(grass), collected.minerals, collected.plants)),
                     Haul(ant.minerals, ant.plants, RockMinerals(rocks), PlantResources(grass), collected.minerals, collected.plants))
  {
    ant.Advance();
    GatherAndDeliver(ant, home, rocks, grass, collected);
  }

  /** What an ant and the nodes hold around one ant's gathering: its two
      loads, what each rock and each plant holds, and the collected store. */
  datatype Haul = Haul(minerals: real, plants: real, stone: seq<real>, leaves: seq<real>, stored: real, grown: real)

  /** The haul went from `was` to `now` as an ant at `at` with capacity `cap`
      gathers: it gathered from the rocks at `rockSpots` and then the plants
      at `plantSpots` in list order, and if it then carried anything within
      reach of `home` it handed the whole load to the collected store. */
  ghost predicate Gathered(at: Point, cap: int, home: Point, rockSpots: seq<Point>, plantSpots: seq<Point>, was: Haul, now: Haul)
  {
    && was.minerals <= cap as real && was.plants <= cap as real
    && |was.stone| == |rockSpots| && |was.leaves| == |plantSpots|
    && var mined := Gather(at, was.minerals, cap, rockSpots, was.stone);
       var grazed := Gather(at, was.plants, cap, plantSpots, was.leaves);
       && now.stone == mined.1 && now.leaves == grazed.1
       && if (mined.0 > 0.0 || grazed.0 > 0.0) && Within(at, home, AwarenessRadius) then
            && now.minerals == 0.0 && now.plants == 0.0
            && now.stored == was.stored + mined.0 && now.grown == was.grown + grazed.0
          else
            && now.minerals == mined.0 && now.plants == grazed.0
            && now.stored == was.stored && now.grown == was.grown
  }

  /** The ant's part of move_pixel_ants after the move. */
  method GatherAndDeliver(ant: Ant, home: Point, rocks: seq<Rock>, grass: seq<Plant>, collected: Collected)
    requires ant.Valid() && Distinct(rocks) && Distinct(grass)
    modifies ant`minerals, ant`plants, rocks, grass, collected
    ensures ant.Valid()
    ensures collected.minerals + ant.minerals + Sum(RockMinerals(rocks))
         == old(collected.minerals + ant.minerals + Sum(RockMinerals(rocks)))
    ensures collected.plants + ant.plants + Sum(PlantResources(grass))
         == old(collected.plants + ant.plants + Sum(PlantResources(grass)))
    ensures old(collected.minerals) <= collected.minerals && old(collected.plants) <= collected.plants
    ensures Drained(old(RockMinerals(rocks)), RockMinerals(rocks))
    ensures Drained(old(PlantResources(grass)), PlantResources(grass))
    ensures Gathered(ant.position, ant.carryCapacity, home, RockSpots(rocks), PlantSpots(grass),
                     old(Haul(ant.minerals, ant.plants, RockMinerals(rocks), PlantResources(grass), collected.minerals, collected.plants)),
                     Haul(ant.minerals, ant.plants, RockMinerals(rocks), PlantResources(grass), collected.minerals, collected.plants))
  {
    Forage(ant, rocks, grass);
    DeliverHome(ant, home, rocks, grass, collected);
  }

  /** The delivery home, which leaves the rocks and the plants as they are. */
  method DeliverHome(ant: Ant, home: Point, rocks: seq<Rock>, grass: seq<Plant>, collected: Collected)
    modifies ant`minerals, ant`plants, collected
    ensures collected.minerals + ant.minerals == old(collected.minerals + ant.minerals)
    ensures collected.plants + ant.plants == old(collected.plants + ant.plants)
    ensures if (old(ant.minerals) > 0.0 || old(ant.plants) > 0.0) && Within(ant.position, home, AwarenessRadius)
      then ant.minerals == 0.0 && ant.plants == 0.0
      else ant.minerals == old(ant.minerals) && ant.plants == old(ant.plants)
    ensures RockMinerals(rocks) == old(RockMinerals(rocks)) && PlantResources(grass) == old(PlantResources(grass))
  {
    ant.Deliver(home, collected);
  }

  /** The rock loop and then the grass loop for one ant. */
  method Forage(ant: Ant, rocks: seq<Rock>, grass: seq<Plant>)
    requires ant.Valid() && Distinct(rocks) && Distinct(grass)
    modifies ant`minerals, ant`plants, rocks, grass
    ensures ant.Valid()
    ensures ant.minerals + Sum(RockMinerals(rocks)) == old(ant.minerals + Sum(RockMinerals(rocks)))
    ensures ant.plants + Sum(PlantResources(grass)) == old(ant.plants + Sum(PlantResources(grass)))
    ensures Drained(old(RockMinerals(rocks)), RockMinerals(rocks))
    ensures Drained(old(PlantResources(grass)), PlantResources(grass))
    ensures (ant.minerals, RockMinerals(rocks)) ==
      Gather(ant.position, old(ant.minerals), ant.carryCapacity, RockSpots(rocks), old(RockMinerals(rocks)))
    ensures (ant.plants, PlantResources(grass)) ==
      Gather(ant.position, old(ant.plants), ant.carryCapacity, PlantSpots(grass), old(PlantResources(grass)))
  {
    ghost var leaves := PlantResources(grass);
    ant.Mine(rocks);
    assert PlantResources(grass) == leaves;
    ghost var stone := RockMinerals(rocks);
    ant.Graze(grass);
    assert RockMinerals(rocks) == stone;
  }

  /** The snapshot a call of move_pixel_ants starts from. */
  datatype Start = Start(was: seq<PixelView>, rocks: seq<real>, grass: seq<real>,
                         minerals: real, plants: real, collected: (real, real))

  /** move_pixel_ants: every ant in turn moves, strips the rocks and plants
      within reach, delivers home when it is near, and sometimes drops a
      breadcrumb.  The totals of minerals and of plants over the collected
      store, the ants' loads and the nodes never change; the store only
      grows and every node only shrinks. */
  method MovePixelAnts(pixels: seq<Pixel>, crumbs: seq<Breadcrumb>, home: Point, rocks: seq<Rock>, grass: seq<Plant>,
                       collected: Collected, rolls: seq<real>, now: int) returns (crumbs': seq<Breadcrumb>)
    requires DistinctObjects(pixels) && AntsValid(pixels) && Distinct(rocks) && Distinct(grass) && |rolls| == |pixels|
    modifies Objects(pixels), rocks, grass, collected
    ensures crumbs' == crumbs + Dropped(old(Snaps(pixels)), rolls, now)
    ensures forall j :: 0 <= j < |pixels| ==> MovedOn(pixels[j], old(Snap(pixels[j])))
    ensures collected.minerals + Sum(CarriedMinerals(pixels)) + Sum(RockMinerals(rocks))
         == old(collected.minerals + Sum(CarriedMinerals(pixels)) + Sum(RockMinerals(rocks)))
    ensures collected.plants + Sum(CarriedPlants(pixels)) + Sum(PlantResources(grass))
         == old(collected.plants + Sum(CarriedPlants(pixels)) + Sum(PlantResources(grass)))
    ensures old(collected.minerals) <= collected.minerals && old(collected.plants) <= collected.plants
    ensures Drained(old(RockMinerals(rocks)), RockMinerals(rocks))
    ensures Drained(old(PlantResources(grass)), PlantResources(grass))
  {
    ghost var s := Start(Snaps(pixels), RockMinerals(rocks), PlantResources(grass),
                         collected.minerals + Sum(CarriedMinerals(pixels)) + Sum(RockMinerals(rocks)),
                         collected.plants + Sum(CarriedPlants(pixels)) + Sum(PlantResources(grass)),
                         (collected.minerals, collected.plants));
    crumbs' := MoveAll(pixels, home, rocks, grass, collected, s, rolls, now, crumbs);
    assert s.was[..|pixels|] == s.was && rolls[..|pixels|] == rolls;
  }

  method MoveAll(pixels: seq<Pixel>, home: Point, rocks: seq<Rock>, grass: seq<Plant>, collected: Collected,
                 ghost s: Start, rolls: seq<real>, now: int, crumbs: seq<Breadcrumb>) returns (crumbs': seq<Breadcrumb>)
    requires Moving(0, pixels, rocks, grass, collected, s, rolls, now, crumbs, crumbs)
    modifies Objects(pixels), rocks, grass, collected
    ensures Moving(|pixels|, pixels, rocks, grass, collected, s, rolls, now, crumbs, crumbs')
  {
    crumbs' := crumbs;
    var i := 0;
    while i < |pixels|
      invariant Moving(i, pixels, rocks, grass, collected, s, rolls, now, crumbs, crumbs')
    {
      if pixels[i].AntPixel? {
        crumbs' := AntMoveTurn(i, pixels, home, rocks, grass, collected, s, rolls, now, crumbs, crumbs');
      } else {
        NodeMoveTurn(i, pixels, home, rocks, grass, collected, s, rolls, now, crumbs, crumbs');
      }
      i := i + 1;
    }
  }

  /** The move loop after `i` pixels. */
  ghost predicate Moving(i: nat, pixels: seq<Pixel>, rocks: seq<Rock>, grass: seq<Plant>, collected: Collected,
                         s: Start, rolls: seq<real>, now: int, crumbs0: seq<Breadcrumb>, crumbs: seq<Breadcrumb>)
    reads Objects(pixels), rocks, grass, collected
  {
    && i <= |pixels| == |s.was| == |rolls|
    && MovedSoFar(i, pixels, s.was)
    && Stocked(pixels, rocks, grass, collected, s)
    && crumbs == crumbs0 + Dropped(s.was[..i], rolls[..i], now)
  }

  /** The first `i` pixels have had their turn from their snapshots in
      `was`; the rest are as they were. */
  ghost predicate MovedSoFar(i: nat, pixels: seq<Pixel>, was: seq<PixelView>)
    reads Objects(pixels)
  {
    && i <= |pixels| == |was| && DistinctObjects(pixels) && AntsValid(pixels)
    && (forall j :: i <= j < |pixels| ==> Snap(pixels[j]) == was[j])
    && (forall j :: 0 <= j < i ==> MovedOn(pixels[j], was[j]))
  }

  /** The totals are those the loop started with, the store has only grown
      and the nodes have only been drained. */
  ghost predicate Stocked(pixels: seq<Pixel>, rocks: seq<Rock>, grass: seq<Plant>, collected: Collected, s: Start)
    reads Objects(pixels), rocks, grass, collected
  {
    && |rocks| == |s.rocks| && |grass| == |s.grass| && Distinct(rocks) && Distinct(grass)
    && collected.minerals + Sum(CarriedMinerals(pixels)) + Sum(RockMinerals(rocks)) == s.minerals
    && collected.plants + Sum(CarriedPlants(pixels)) + Sum(PlantResources(grass)) == s.plants
    && s.collected.0 <= collected.minerals && s.collected.1 <= collected.plants
    && Drained(s.rocks, RockMinerals(rocks))
    && Drained(s.grass, PlantResources(grass))
  }

  method NodeMoveTurn(i: nat, pixels: seq<Pixel>, home: Point, rocks: seq<Rock>, grass: seq<Plant>, collected: Collected,
                      ghost s: Start, rolls: seq<real>, now: int, ghost crumbs0: seq<Breadcrumb>, crumbs: seq<Breadcrumb>)
    requires i < |pixels| && pixels[i].NodePixel? && Moving(i, pixels, rocks, grass, collected, s, rolls, now, crumbs0, crumbs)
    ensures Moving(i + 1, pixels, rocks, grass, collected, s, rolls, now, crumbs0, crumbs)
  {
    assert s.was[..i + 1][..i] == s.was[..i] && rolls[..i + 1][..i] == rolls[..i];
  }

  method AntMoveTurn(i: nat, pixels: seq<Pixel>, home: Point, rocks: seq<Rock>, grass: seq<Plant>, collected: Collected,
                     ghost s: Start, rolls: seq<real>, now: int, ghost crumbs0: seq<Breadcrumb>, crumbs: seq<Breadcrumb>)
    returns (crumbs': seq<Breadcrumb>)
    requires i < |pixels| && pixels[i].AntPixel? && Moving(i, pixels, rocks, grass, collected, s, rolls, now, crumbs0, crumbs)
    modifies pixels[i].ant, rocks, grass, collected
    ensures Moving(i + 1, pixels, rocks, grass, collected, s, rolls, now, crumbs0, crumbs')
  {
    var ant := pixels[i].ant;
    AntMoved(i, pixels, home, rocks, grass, collected, s);
    ghost var drop := if rolls[i] < CrumbChance then [Breadcrumb(Moved(s.was[i].ant), now)] else [];
    assert s.was[..i + 1][..i] == s.was[..i] && rolls[..i + 1][..i] == rolls[..i];
    assert Dropped(s.was[..i + 1], rolls[..i + 1], now) == Dropped(s.was[..i], rolls[..i], now) + drop;
    crumbs' := crumbs;
    if rolls[i] < CrumbChance {
      crumbs' := crumbs + [Breadcrumb(ant.position, now)];
    }
  }

  /** Ant `i`'s turn keeps the loop's account of the pixels and the totals. */
  method AntMoved(i: nat, pixels: seq<Pixel>, home: Point, rocks: seq<Rock>, grass: seq<Plant>, collected: Collected, ghost s: Start)
    requires i < |pixels| && pixels[i].AntPixel? && MovedSoFar(i, pixels, s.was) && Stocked(pixels, rocks, grass, collected, s)
    modifies pixels[i].ant, rocks, grass, collected
    ensures MovedSoFar(i + 1, pixels, s.was) && Stocked(pixels, rocks, grass, collected, s)
    ensures s.was[i].AntV? && pixels[i].ant.position == Moved(s.was[i].ant)
  {
    var ant := pixels[i].ant;
    ghost var v := ant.View();
    assert s.was[i] == AntV(v);
    ghost var rocks0, grass0 := RockMinerals(rocks), PlantResources(grass);
    AntStep(i, pixels, home, rocks, grass, collected);
    DrainedTwice(s.rocks, rocks0, RockMinerals(rocks));
    DrainedTwice(s.grass, grass0, PlantResources(grass));
    assert MovedOn(pixels[i], s.was[i]);
  }

  /** Ant `i`'s part of the move loop, seen from the whole list: no other
      pixel changes, and the totals carried change by what ant `i` now
      carries. */
  method AntStep(i: nat, pixels: seq<Pixel>, home: Point, rocks: seq<Rock>, grass: seq<Plant>, collected: Collected)
    requires i < |pixels| && pixels[i].AntPixel? && DistinctObjects(pixels) && AntsValid(pixels)
    requires Distinct(rocks) && Distinct(grass)
    modifies pixels[i].ant, rocks, grass, collected
    ensures AntsValid(pixels)
    ensures forall j :: 0 <= j < |pixels| && j != i ==> unchanged(Obj(pixels[j]))
    ensures pixels[i].ant.position == Moved(old(pixels[i].ant.View()))
    ensures pixels[i].ant.direction == old(pixels[i].ant.direction) && pixels[i].ant.Stats() == old(pixels[i].ant.Stats())
    ensures collected.minerals + Sum(CarriedMinerals(pixels)) + Sum(RockMinerals(rocks))
         == old(collected.minerals + Sum(CarriedMinerals(pixels)) + Sum(RockMinerals(rocks)))
    ensures collected.plants + Sum(CarriedPlants(pixels)) + Sum(PlantResources(grass))
         == old(collected.plants + Sum(CarriedPlants(pixels)) + Sum(PlantResources(grass)))
    ensures old(collected.minerals) <= collected.minerals && old(collected.plants) <= collected.plants
    ensures Drained(old(RockMinerals(rocks)), RockMinerals(rocks))
    ensures Drained(old(PlantResources(grass)), PlantResources(grass))
  {
    var ant := pixels[i].ant;
    ghost var minerals, plants := CarriedMinerals(pixels), CarriedPlants(pixels);
    label Before:
    MoveAntTotals(ant, home, rocks, grass, collected);
    forall j | 0 <= j < |pixels| && j != i
      ensures unchanged@Before(Obj(pixels[j]))
    {
      assert Obj(pixels[j]) != Obj(pixels[i]);
    }
    assert CarriedMinerals(pixels) == minerals[i := ant.minerals];
    assert CarriedPlants(pixels) == plants[i := ant.plants];
    SumUpdate(minerals, i, ant.minerals);
    SumUpdate(plants, i, ant.plants);
  }

  /** MoveAnt as the pixel loop uses it: the move and the totals it keeps,
      without the exact account of the gathering, which the loop does not
      need. */
  method MoveAntTotals(ant: Ant, home: Point, rocks: seq<Rock>, grass: seq<Plant>, collected: Collected)
    requires ant.Valid() && Distinct(rocks) && Distinct(grass)
    modifies ant`position, ant`minerals, ant`plants, rocks, grass, collected
    ensures ant.Valid() && ant.position == Moved(old(ant.View()))
    ensures collected.minerals + ant.minerals + Sum(RockMinerals(rocks))
         == old(collected.minerals + ant.minerals + Sum(RockMinerals(rocks)))
    ensures collected.plants + ant.plants + Sum(PlantResources(grass))
         == old(collected.plants + ant.plants + Sum(PlantResources(grass)))
    ensures old(collected.minerals) <= collected.minerals && old(collected.plants) <= collected.plants
    ensures Drained(old(RockMinerals(rocks)), RockMinerals(rocks))
    ensures Drained(old(PlantResources(grass)), PlantResources(grass))
  {
    MoveAnt(ant, home, rocks, grass, collected);
  }

}
