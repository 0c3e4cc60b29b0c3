/** The agents of the main game (src/entities.py): colonies, ants, the snake,
    the spider and its webs.  They are objects because the game updates their
    fields in place every frame; colonies and ants refer to each other (an ant
    knows its home colony, a colony creates ants), so they share one module.

    Drawing, sounds, jump and scuttle animations are not part of this model.
    Random draws and trigonometric headings are parameters. */
module Entities {
  import opened Wrappers
  import opened Geometry
  import opened Resources

  // Sizes and economy (src/constants.py).
  const AntSize: real := 3.0
  const ColonyMinSize: real := 10.0
  const ColonyMaxSize: real := 25.0
  const ColonyInitialMinerals: int := 200
  const ColonyInitialPlants: int := 100
  const ColonyMaxAnts: int := 12
  const AntMineralCost: int := 8
  const AntPlantCost: int := 15
  const NewColonyMineralCost: int := 200
  const NewColonyPlantCost: int := 400

  // Ant defaults (src/entities.py, Ant.__init__).
  const AntCarryCapacity: int := 10
  const AntPerceptionRadius: real := 40.0
  const EdgeBuffer: real := 20.0

  /** An ant drops its load once it is no farther than ANT_SIZE + COLONY_MIN_SIZE
      from the colony. */
  const DepositReach: real := AntSize + ColonyMinSize

  datatype AntState = Exploring | Collecting | Returning

  /** The random draws that place and orient a new ant: an offset in
      [-10, 10] x [-10, 10] from the colony and a sign per heading component. */
  datatype AntDraw = AntDraw(dx: int, dy: int, rightward: bool, downward: bool)

  predicate ValidDraw(d: AntDraw)
  {
    -10 <= d.dx <= 10 && -10 <= d.dy <= 10
  }

  function Sign(positive: bool): real
  {
    if positive then 1.0 else -1.0
  }

  function NodePositions(rs: seq<ResourceNode>): (ps: seq<Point>)
    ensures |ps| == |rs| && forall i :: 0 <= i < |rs| ==> ps[i] == rs[i].position
  {
    seq(|rs|, i requires 0 <= i < |rs| => rs[i].position)
  }

  function ColonyPositions(cs: seq<Colony>): (ps: seq<Point>)
    ensures |ps| == |cs| && forall i :: 0 <= i < |cs| ==> ps[i] == cs[i].position
  {
    seq(|cs|, i requires 0 <= i < |cs| => cs[i].position)
  }

  /** A colony's store: (minerals, plants). */
  function Stock(c: Colony): (int, int)
    reads c
  {
    (c.minerals, c.plants)
  }

  function Stocks(cs: seq<Colony>): (ss: seq<(int, int)>)
    reads cs
    ensures |ss| == |cs| && forall i :: 0 <= i < |cs| ==> ss[i] == Stock(cs[i])
  {
    seq(|cs|, i reads cs requires 0 <= i < |cs| => Stock(cs[i]))
  }

  function AntPositions(ants: seq<Ant>): (ps: seq<Point>)
    reads ants
    ensures |ps| == |ants| && forall i :: 0 <= i < |ants| ==> ps[i] == ants[i].position
  {
    seq(|ants|, i reads ants requires 0 <= i < |ants| => ants[i].position)
  }

  // ---------------------------------------------------------------------
  // Population accounting
  // ---------------------------------------------------------------------

  /** How many ants of `ants` call `c` home. */
  function HomeCount(ants: seq<Ant>, c: Colony): nat
  {
    if ants == [] then 0
    else HomeCount(ants[..|ants| - 1], c) + (if ants[|ants| - 1].home == c then 1 else 0)
  }

  lemma {:induction false} HomeCountConcat(a: seq<Ant>, b: seq<Ant>, c: Colony)
    ensures HomeCount(a + b, c) == HomeCount(a, c) + HomeCount(b, c)
    decreases |b|
  {
    if b != [] {
      assert (a + b)[..|a + b| - 1] == a + b[..|b| - 1];
      HomeCountConcat(a, b[..|b| - 1], c);
    } else {
      assert a + b == a;
    }
  }

  /** Removing the ant at `k` lowers exactly its home's count, by one. */
  lemma HomeCountRemove(ants: seq<Ant>, k: nat, c: Colony)
    requires k < |ants|
    ensures HomeCount(ants[..k] + ants[k + 1..], c) == HomeCount(ants, c) - (if ants[k].home == c then 1 else 0)
  {
    assert ants == ants[..k] + ([ants[k]] + ants[k + 1..]);
    HomeCountConcat(ants[..k], [ants[k]] + ants[k + 1..], c);
    HomeCountConcat([ants[k]], ants[k + 1..], c);
    HomeCountConcat(ants[..k], ants[k + 1..], c);
    assert HomeCount([ants[k]], c) == HomeCount([], c) + (if ants[k].home == c then 1 else 0) by {
      assert [ants[k]][..0] == [];
    }
  }

  /** The census the game keeps: every ant's home is a listed colony and every
      colony's `antCount` is the number of ants that call it home. */
  ghost predicate Census(ants: seq<Ant>, colonies: seq<Colony>)
    reads colonies
  {
    && (forall i :: 0 <= i < |ants| && ants[i].home != null ==> ants[i].home in colonies)
    && (forall j :: 0 <= j < |colonies| ==> colonies[j].antCount == HomeCount(ants, colonies[j]))
  }

  // ---------------------------------------------------------------------
  // Colony
  // ---------------------------------------------------------------------

  class Colony {
    const position: Point
    const isMain: bool
    var minerals: int
    var plants: int
    var antCount: int
    const maxAnts: int := ColonyMaxAnts
    var spawnTimer: int
    /** The automatic spawn is considered every 5 seconds. */
    const spawnInterval: int := 5000

    ghost predicate Valid()
      reads this
    {
      antCount <= maxAnts
    }

    /** Colony(position, ants, game, is_main).  A main colony starts with 200
        minerals and 100 plants, any other colony with nothing.  The two
        initial ants of a main colony are a separate step, SpawnInitialAnts. */
    constructor (p: Point, main: bool)
      ensures Valid() && position == p && isMain == main
      ensures antCount == 0 && spawnTimer == 0
      ensures minerals == (if main then ColonyInitialMinerals else 0)
      ensures plants == (if main then ColonyInitialPlants else 0)
    {
      position, isMain := p, main;
      minerals := if main then ColonyInitialMinerals else 0;
      plants := if main then ColonyInitialPlants else 0;
      antCount, spawnTimer := 0, 0;
    }

    /** can_spawn_ant: room for one more ant and stock for its cost. */
    predicate CanSpawnAnt()
      reads this
    {
      antCount < maxAnts && minerals >= AntMineralCost && plants >= AntPlantCost
    }

    /** can_create_colony: only the main colony, and only with the founding
        cost in stock. */
    predicate CanCreateColony()
      reads this
    {
      minerals >= NewColonyMineralCost && plants >= NewColonyPlantCost && isMain
    }

    /** spawn_initial_ants: two rounds, each adding an ant while the colony
        has room, without any cost. */
    method SpawnInitialAnts(ants: seq<Ant>, draws: seq<AntDraw>) returns (ants': seq<Ant>)
      requires Valid() && |draws| == 2 && forall i :: 0 <= i < 2 ==> ValidDraw(draws[i])
      modifies this
      ensures Valid()
      ensures antCount == (if old(antCount) + 2 <= maxAnts then old(antCount) + 2
                           else if old(antCount) < maxAnts then maxAnts else old(antCount))
      ensures |ants'| == |ants| + (antCount - old(antCount)) && ants'[..|ants|] == ants
      ensures forall i :: |ants| <= i < |ants'| ==> fresh(ants'[i]) && ants'[i].home == this && ants'[i].Newborn()
      ensures forall c: Colony :: HomeCount(ants', c) == HomeCount(ants, c) + (if c == this then antCount - old(antCount) else 0)
      ensures minerals == old(minerals) && plants == old(plants) && spawnTimer == old(spawnTimer)
      ensures Distinct(ants) ==> Distinct(ants')
    {
      ants' := ants;
      var round := 0;
      while round < 2
        invariant 0 <= round <= 2 && Valid()
        invariant antCount == (if old(antCount) + round <= maxAnts then old(antCount) + round
                               else if old(antCount) < maxAnts then maxAnts else old(antCount))
        invariant |ants'| == |ants| + (antCount - old(antCount)) && ants'[..|ants|] == ants
        invariant forall i :: |ants| <= i < |ants'| ==> fresh(ants'[i]) && ants'[i].home == this && ants'[i].Newborn()
        invariant forall c: Colony :: HomeCount(ants', c) == HomeCount(ants, c) + (if c == this then antCount - old(antCount) else 0)
        invariant minerals == old(minerals) && plants == old(plants) && spawnTimer == old(spawnTimer)
        invariant Distinct(ants) ==> Distinct(ants')
      {
        if antCount < maxAnts {
          var d := draws[round];
          var ant := new Ant(Point(position.x + d.dx as real, position.y + d.dy as real), d.rightward, d.downward, this);
          forall c: Colony ensures HomeCount(ants' + [ant], c) == HomeCount(ants', c) + (if c == this then 1 else 0) {
            assert (ants' + [ant])[..|ants'|] == ants';
          }
          ants' := ants' + [ant];
          antCount := antCount + 1;
        }
        round := round + 1;
      }
    }

    /** spawn_ant: when CanSpawnAnt holds, append one ant homed here, count it
        and pay exactly its cost; otherwise change nothing. */
    method SpawnAnt(ants: seq<Ant>, draw: AntDraw) returns (ants': seq<Ant>)
      requires Valid() && ValidDraw(draw)
      modifies this
      ensures Valid()
      ensures old(CanSpawnAnt()) ==>
        && |ants'| == |ants| + 1 && ants'[..|ants|] == ants
        && fresh(ants'[|ants|]) && ants'[|ants|].home == this && ants'[|ants|].Newborn()
        && ants'[|ants|].position == Point(position.x + draw.dx as real, position.y + draw.dy as real)
        && antCount == old(antCount) + 1
        && minerals == old(minerals) - AntMineralCost && plants == old(plants) - AntPlantCost
        && minerals >= 0 && plants >= 0
      ensures !old(CanSpawnAnt()) ==> ants' == ants && antCount == old(antCount) && minerals == old(minerals) && plants == old(plants)
      ensures spawnTimer == old(spawnTimer)
      ensures forall c: Colony :: HomeCount(ants', c) == HomeCount(ants, c) + (if c == this then antCount - old(antCount) else 0)
    {
      ants' := ants;
      if CanSpawnAnt() {
        var ant := new Ant(Point(position.x + draw.dx as real, position.y + draw.dy as real), draw.rightward, draw.downward, this);
        forall c: Colony ensures HomeCount(ants + [ant], c) == HomeCount(ants, c) + (if c == this then 1 else 0) {
          assert (ants + [ant])[..|ants|] == ants;
        }
        ants' := ants + [ant];
        antCount := antCount + 1;
        minerals := minerals - AntMineralCost;
        plants := plants - AntPlantCost;
      }
    }

    /** update: every `spawnInterval` ms, reset the timer and, when an ant can
        be afforded, spawn one with probability SpawnPriority (the draw `roll`
        stands for `random.random()`). */
    method Update(now: int, ants: seq<Ant>, roll: real, draw: AntDraw) returns (ants': seq<Ant>)
      requires Valid() && ValidDraw(draw)
      modifies this
      ensures Valid()
      ensures now - old(spawnTimer) < spawnInterval ==>
        ants' == ants && spawnTimer == old(spawnTimer) && antCount == old(antCount)
        && minerals == old(minerals) && plants == old(plants)
      ensures now - old(spawnTimer) >= spawnInterval ==> spawnTimer == now
      ensures |ants'| == |ants| || |ants'| == |ants| + 1
      ensures ants'[..|ants|] == ants
      ensures |ants'| == |ants| + 1 <==>
        now - old(spawnTimer) >= spawnInterval && old(CanSpawnAnt()) && roll < SpawnPriority(old(antCount), maxAnts)
      ensures |ants'| == |ants| + 1 ==>
        antCount == old(antCount) + 1 && minerals == old(minerals) - AntMineralCost && plants == old(plants) - AntPlantCost
        && fresh(ants'[|ants|]) && ants'[|ants|].home == this && ants'[|ants|].Newborn()
      ensures |ants'| == |ants| ==>
        antCount == old(antCount) && minerals == old(minerals) && plants == old(plants)
      ensures forall c: Colony :: HomeCount(ants', c) == HomeCount(ants, c) + (if c == this then antCount - old(antCount) else 0)
    {
      ants' := ants;
      if now - spawnTimer >= spawnInterval {
        spawnTimer := now;
        if antCount < maxAnts && CanSpawnAnt() {
          var priority := SpawnPriority(antCount, maxAnts);
          if roll < priority {
            ants' := SpawnAnt(ants, draw);
          }
        }
      }
    }
  }

  /** `(max_ants - ant_count) / max_ants`: the fewer ants, the likelier a
      spawn; a full colony has priority 0. */
  function SpawnPriority(count: int, maxAnts: int): (p: real)
    requires 0 < maxAnts
    ensures 0 <= count < maxAnts ==> 0.0 < p <= 1.0
    ensures count == 0 ==> p == 1.0
    ensures count >= maxAnts ==> p <= 0.0
  {
    (maxAnts - count) as real / maxAnts as real
  }

  // ---------------------------------------------------------------------
  // Ant
  // ---------------------------------------------------------------------

  /** check_boundaries: within EdgeBuffer of a side, force the heading
      component away from that side (left and top take precedence); keep it
      otherwise.  The magnitude of each component is preserved. */
  function EdgeTurn(p: Point, d: Point): (r: Point)
    ensures Abs(r.x) == Abs(d.x) && Abs(r.y) == Abs(d.y)
    ensures p.x <= EdgeBuffer ==> r.x >= 0.0
    ensures EdgeBuffer < p.x && WindowWidth - EdgeBuffer <= p.x ==> r.x <= 0.0
    ensures EdgeBuffer < p.x < WindowWidth - EdgeBuffer ==> r.x == d.x
    ensures p.y <= EdgeBuffer ==> r.y >= 0.0
    ensures EdgeBuffer < p.y && WindowHeight - EdgeBuffer <= p.y ==> r.y <= 0.0
    ensures EdgeBuffer < p.y < WindowHeight - EdgeBuffer ==> r.y == d.y
  {
    Point(
      if p.x <= EdgeBuffer then Abs(d.x) else if p.x >= WindowWidth - EdgeBuffer then -Abs(d.x) else d.x,
      if p.y <= EdgeBuffer then Abs(d.y) else if p.y >= WindowHeight - EdgeBuffer then -Abs(d.y) else d.y)
  }

  /** One step of move: `pace` along the heading, then clamped into the
      field. */
  function Advance(p: Point, d: Point, pace: real): (r: Point)
    ensures InWorld(r)
    ensures InWorld(Point(p.x + d.x * pace, p.y + d.y * pace)) ==> r == Point(p.x + d.x * pace, p.y + d.y * pace)
  {
    ClampToWorld(Point(p.x + d.x * pace, p.y + d.y * pace))
  }

  /** The heading after the threat checks of update: the snake's flee heading
      if the snake is perceived, else the cursor's if the cursor is, else the
      current heading. */
  function FleeHeading(p: Point, radius: real, cursor: Point, snakeHead: Point,
                       fleeFromCursor: Point, fleeFromSnake: Point, current: Point): Point
  {
    if Within(p, snakeHead, radius) then fleeFromSnake
    else if Within(p, cursor, radius) then fleeFromCursor
    else current
  }

  /** The first of `qs` strictly within `radius` of `p`, in list order. */
  function FirstInRange(p: Point, qs: seq<Point>, radius: real): (k: Option<nat>)
    ensures k.Some? ==> k.value < |qs| && Within(p, qs[k.value], radius)
    ensures k.Some? ==> forall j :: 0 <= j < k.value ==> !Within(p, qs[j], radius)
    ensures k.None? <==> forall j :: 0 <= j < |qs| ==> !Within(p, qs[j], radius)
  {
    if qs == [] then None
    else if Within(p, qs[0], radius) then Some(0)
    else
      match FirstInRange(p, qs[1..], radius)
      case None => None
      case Some(k) => Some(k + 1)
  }

  /** The amount collect_resources moves: `min(capacity - carried, content)`,
      the most the ant can take without exceeding its capacity or draining
      more than the node holds. */
  function CollectAmount(carried: int, capacity: int, content: int): (amount: int)
    requires carried <= capacity && 0 < content
    ensures 0 <= amount <= content && carried + amount <= capacity
    ensures amount == content || carried + amount == capacity
  {
    if capacity - carried <= content then capacity - carried else content
  }

  class Ant {
    var position: Point
    var direction: Point
    var minerals: int
    var plants: int
    const carryCapacity: int := AntCarryCapacity
    var speed: real
    var perceptionRadius: real
    var state: AntState
    var target: ResourceNode?
    /** home_colony; every place that creates an ant sets it straight away. */
    const home: Colony?
    var webSlowTimer: int

    /** Each carried kind stays between zero and the carry capacity. */
    ghost predicate Valid()
      reads this
    {
      0 <= minerals <= carryCapacity && 0 <= plants <= carryCapacity
    }

    /** What the state machine reads and writes of the ant itself. */
    function Pose(): AntPose
      reads this
    {
      AntPose(direction, state, target, minerals, plants)
    }

    /** The content of the target node, 0 without one. */
    function TargetContent(): int
      reads this, target
    {
      if target == null then 0 else target.content
    }

    /** The state of a freshly created ant. */
    ghost predicate Newborn()
      reads this
    {
      && Valid() && minerals == 0 && plants == 0 && state == Exploring && target == null
      && speed == 1.0 && perceptionRadius == AntPerceptionRadius && webSlowTimer == 0
      && Abs(direction.x) == 1.0 && Abs(direction.y) == 1.0
    }

    /** Ant(position, game) followed by `home_colony = h`; the heading signs
        are the draws `random.choice([-1, 1])`. */
    constructor (p: Point, rightward: bool, downward: bool, h: Colony?)
      ensures Newborn() && position == p && home == h
      ensures direction == Point(Sign(rightward), Sign(downward))
    {
      position := p;
      direction := Point(Sign(rightward), Sign(downward));
      minerals, plants := 0, 0;
      speed, perceptionRadius := 1.0, AntPerceptionRadius;
      state, target := Exploring, null;
      home := h;
      webSlowTimer := 0;
    }

    /** perceive_threat: the threat is strictly within the perception radius. */
    predicate PerceivesThreat(threat: Point)
      reads this
    {
      Within(position, threat, perceptionRadius)
    }

    method CheckBoundaries()
      modifies this`direction
      ensures direction == EdgeTurn(position, old(direction))
    {
      if position.x <= EdgeBuffer {
        direction := direction.(x := Abs(direction.x));
      } else if position.x >= WindowWidth - EdgeBuffer {
        direction := direction.(x := -Abs(direction.x));
      }
      if position.y <= EdgeBuffer {
        direction := direction.(y := Abs(direction.y));
      } else if position.y >= WindowHeight - EdgeBuffer {
        direction := direction.(y := -Abs(direction.y));
      }
    }

    /** move: turn at the edges, step `speed` along the heading, clamp into
        the field. */
    method Move(speed: real)
      modifies this`position, this`direction
      ensures direction == EdgeTurn(old(position), old(direction))
      ensures position == Advance(old(position), direction, speed)
    {
      CheckBoundaries();
      position := Advance(position, direction, speed);
    }

    /** explore: a full load sends the ant home; otherwise the first node in
        perception range, in list order, becomes the target whatever its
        content, and the ant heads for it. */
    method Explore(resources: seq<ResourceNode>)
      modifies this`state, this`target, this`direction
      ensures old(minerals >= carryCapacity || plants >= carryCapacity) ==>
        state == Returning && target == old(target) && direction == old(direction)
      ensures !old(minerals >= carryCapacity || plants >= carryCapacity) ==>
        match FirstInRange(position, NodePositions(resources), perceptionRadius)
        case None => state == old(state) && target == old(target) && direction == old(direction)
        case Some(k) =>
          && target == resources[k] && state == Collecting
          && direction == HeadingToward(position, resources[k].position, old(direction))
      ensures Explored(this, old(Pose()), resources)
    {
      if minerals >= carryCapacity || plants >= carryCapacity {
        state := Returning;
        return;
      }
      var i := 0;
      while i < |resources|
        invariant 0 <= i <= |resources|
        invariant forall j :: 0 <= j < i ==> !Within(position, resources[j].position, perceptionRadius)
        invariant state == old(state) && target == old(target) && direction == old(direction)
      {
        var r := resources[i];
        if Within(position, r.position, perceptionRadius) {
          target := r;
          state := Collecting;
          direction := HeadingToward(position, r.position, direction);
          FirstInRangeAt(position, NodePositions(resources), perceptionRadius, i);
          return;
        }
        i := i + 1;
      }
    }

    /** collect_resources: no target or a depleted one sends the ant back to
        exploring; out of reach nothing happens; on contact the ant takes
        CollectAmount of the node's kind, drops the target, and returns home
        if it carries anything. */
    method CollectResources()
      requires Valid()
      modifies this`minerals, this`plants, this`state, this`target, target
      ensures Valid() && position == old(position) && direction == old(direction)
      ensures old(target) == null ==>
        state == Exploring && target == null && minerals == old(minerals) && plants == old(plants)
      ensures old(target) != null && old(target.content) <= 0 ==>
        && state == Exploring && target == null && minerals == old(minerals) && plants == old(plants)
        && old(target).content == old(target.content)
      ensures old(target) != null && old(target.content) > 0 && !Within(position, old(target).position, AntSize + old(target).size) ==>
        && state == old(state) && target == old(target) && minerals == old(minerals) && plants == old(plants)
        && old(target).content == old(target.content)
      ensures old(target) != null && old(target.content) > 0 && Within(position, old(target).position, AntSize + old(target).size) ==>
        && (old(target).kind == Rock ==>
              minerals == old(minerals) + CollectAmount(old(minerals), carryCapacity, old(target.content)) && plants == old(plants))
        && (old(target).kind != Rock ==>
              plants == old(plants) + CollectAmount(old(plants), carryCapacity, old(target.content)) && minerals == old(minerals))
        && (minerals + plants) - old(minerals + plants) == old(target.content) - old(target).content
        && old(target).content >= 0
        && target == null && state == Returning && minerals + plants > 0
      ensures Collected(this, old(Pose()), old(TargetContent())) && Drawn(this, old(Pose()), old(TargetContent()))
    {
      if target == null {
        state := Exploring;
        return;
      }
      var t := target;
      if t.content <= 0 {
        target := null;
        state := Exploring;
        return;
      }
      if Within(position, t.position, AntSize + t.size) {
        if t.kind == Rock {
          var amount := CollectAmount(minerals, carryCapacity, t.content);
          minerals := minerals + amount;
          t.content := t.content - amount;
        } else {
          var amount := CollectAmount(plants, carryCapacity, t.content);
          plants := plants + amount;
          t.content := t.content - amount;
        }
        // The source falls back to exploring when nothing is carried, but a
        // collection always leaves the ant carrying something.
        if minerals > 0 || plants > 0 {
          state := Returning;
        } else {
          assert false;
        }
        target := null;
      }
    }

    /** return_to_colony: head for the nearest colony (the first on a tie);
        within DepositReach, hand over the whole load to it and explore again. */
    method ReturnToColony(colonies: seq<Colony>)
      modifies this`direction, this`minerals, this`plants, this`state, colonies
      ensures position == old(position) && target == old(target)
      ensures |colonies| == 0 ==>
        direction == old(direction) && minerals == old(minerals) && plants == old(plants) && state == old(state)
      ensures |colonies| > 0 ==>
        var k := NearestIndex(position, ColonyPositions(colonies));
        var c := colonies[k];
        && (forall j :: 0 <= j < |colonies| && colonies[j] != c ==>
              colonies[j].minerals == old(colonies[j].minerals) && colonies[j].plants == old(colonies[j].plants))
        && (forall j :: 0 <= j < |colonies| ==>
              colonies[j].antCount == old(colonies[j].antCount) && colonies[j].spawnTimer == old(colonies[j].spawnTimer))
        && (Dist2(position, c.position) > DepositReach * DepositReach ==>
              && direction == HeadingToward(position, c.position, old(direction))
              && c.minerals == old(c.minerals) && c.plants == old(c.plants)
              && minerals == old(minerals) && plants == old(plants) && state == old(state))
        && (Dist2(position, c.position) <= DepositReach * DepositReach ==>
              && c.minerals == old(c.minerals) + old(minerals) && c.plants == old(c.plants) + old(plants)
              && minerals == 0 && plants == 0 && state == Exploring && direction == old(direction))
      ensures Returned(this, old(Pose()), colonies) && Deposited(this, old(Pose()), colonies, old(Stocks(colonies)))
    {
      if |colonies| == 0 {
        return;
      }
      var k := NearestIndex(position, ColonyPositions(colonies));
      var c := colonies[k];
      if Dist2(position, c.position) > DepositReach * DepositReach {
        direction := HeadingToward(position, c.position, direction);
      } else {
        c.minerals := c.minerals + minerals;
        c.plants := c.plants + plants;
        minerals, plants := 0, 0;
        state := Exploring;
      }
    }

    /** The threat checks of update: a perceived cursor, then a perceived
        snake, each replace the heading by a flee heading (`fleeFromCursor`
        and `fleeFromSnake` stand for the random flee angle). */
    method FaceThreats(cursor: Point, snakeHead: Point, fleeFromCursor: Point, fleeFromSnake: Point) returns (threatened: bool)
      modifies this`direction
      ensures threatened == (Within(position, cursor, perceptionRadius) || Within(position, snakeHead, perceptionRadius))
      ensures direction == FleeHeading(position, perceptionRadius, cursor, snakeHead, fleeFromCursor, fleeFromSnake, old(direction))
    {
      threatened := false;
      if PerceivesThreat(cursor) {
        direction := fleeFromCursor;
        threatened := true;
      }
      if PerceivesThreat(snakeHead) {
        direction := fleeFromSnake;
        threatened := true;
      }
    }

    /** One step of the exploring / collecting / returning state machine. */
    method Step(resources: seq<ResourceNode>, colonies: seq<Colony>)
      requires Valid()
      modifies this`state, this`target, this`direction, this`minerals, this`plants, target, colonies
      ensures Valid() && position == old(position)
      ensures forall j :: 0 <= j < |colonies| ==> colonies[j].antCount == old(colonies[j].antCount)
      ensures StepTaken(this, old(Pose()), old(TargetContent()), old(Stocks(colonies)), resources, colonies)
    {
      if state == Exploring {
        Explore(resources);
      } else if state == Collecting {
        CollectResources();
      } else {
        ReturnToColony(colonies);
      }
    }

    /** update: a web slows the ant to half speed while its timer runs; the
        threat checks may replace the heading; the ant always moves; and only
        when no threat was perceived does it take the step of its state
        machine.  Returns whether a threat was perceived. */
    method Update(cursor: Point, snakeHead: Point, resources: seq<ResourceNode>, colonies: seq<Colony>,
                  dt: int, fleeFromCursor: Point, fleeFromSnake: Point) returns (threatened: bool)
      requires Valid()
      modifies this, target, colonies
      ensures Valid() && InWorld(position)
      ensures threatened == (Within(old(position), cursor, old(perceptionRadius)) || Within(old(position), snakeHead, old(perceptionRadius)))
      ensures webSlowTimer == (if old(webSlowTimer) > 0 then old(webSlowTimer) - dt else old(webSlowTimer))
      ensures speed == old(speed) && perceptionRadius == old(perceptionRadius)
      ensures forall j :: 0 <= j < |colonies| ==> colonies[j].antCount == old(colonies[j].antCount)
      ensures
        var fled := FleeHeading(old(position), old(perceptionRadius), cursor, snakeHead, fleeFromCursor, fleeFromSnake, old(direction));
        var pace := if old(webSlowTimer) > 0 then old(speed) * 0.5 else old(speed);
        position == Advance(old(position), EdgeTurn(old(position), fled), pace)
      ensures threatened ==>
        var fled := FleeHeading(old(position), old(perceptionRadius), cursor, snakeHead, fleeFromCursor, fleeFromSnake, old(direction));
        && direction == EdgeTurn(old(position), fled)
        && state == old(state) && target == old(target) && minerals == old(minerals) && plants == old(plants)
        && (old(target) != null ==> old(target).content == old(target.content))
        && forall j :: 0 <= j < |colonies| ==>
             colonies[j].minerals == old(colonies[j].minerals) && colonies[j].plants == old(colonies[j].plants)
      ensures !threatened ==>
        var fled := FleeHeading(old(position), old(perceptionRadius), cursor, snakeHead, fleeFromCursor, fleeFromSnake, old(direction));
        StepTaken(this, old(Pose()).(direction := EdgeTurn(old(position), fled)), old(TargetContent()), old(Stocks(colonies)),
                  resources, colonies)
    {
      threatened := Maneuver(cursor, snakeHead, dt, fleeFromCursor, fleeFromSnake);
      if !threatened {
        Step(resources, colonies);
      }
    }

    /** The first half of update: the web timer, the threat checks and the
        move. */
    method Maneuver(cursor: Point, snakeHead: Point, dt: int, fleeFromCursor: Point, fleeFromSnake: Point) returns (threatened: bool)
      modifies this`position, this`direction, this`webSlowTimer
      ensures InWorld(position)
      ensures threatened == (Within(old(position), cursor, perceptionRadius) || Within(old(position), snakeHead, perceptionRadius))
      ensures webSlowTimer == (if old(webSlowTimer) > 0 then old(webSlowTimer) - dt else old(webSlowTimer))
      ensures
        var fled := FleeHeading(old(position), perceptionRadius, cursor, snakeHead, fleeFromCursor, fleeFromSnake, old(direction));
        && direction == EdgeTurn(old(position), fled)
        && position == Advance(old(position), direction, if old(webSlowTimer) > 0 then speed * 0.5 else speed)
    {
      var pace := speed;
      if webSlowTimer > 0 {
        webSlowTimer := webSlowTimer - dt;
        pace := speed * 0.5;
      }
      threatened := FaceThreats(cursor, snakeHead, fleeFromCursor, fleeFromSnake);
      Move(pace);
    }
  }

  /** An ant's heading, behaviour, target and load: what one step of its
      state machine reads and writes of the ant itself. */
  datatype AntPose = AntPose(direction: Point, state: AntState, target: ResourceNode?, minerals: int, plants: int)

  /** explore, for ant `a` that stood at `b` before: a full load turns it
      home; otherwise the first node in perception range becomes its target
      and it heads there, and with none in range nothing changes. The load
      is never touched. */
  ghost predicate Explored(a: Ant, b: AntPose, resources: seq<ResourceNode>)
    reads a
  {
    && a.minerals == b.minerals && a.plants == b.plants
    && if b.minerals >= a.carryCapacity || b.plants >= a.carryCapacity then
         a.state == Returning && a.target == b.target && a.direction == b.direction
       else
         match FirstInRange(a.position, NodePositions(resources), a.perceptionRadius)
         case None => a.state == b.state && a.target == b.target && a.direction == b.direction
         case Some(k) =>
           a.target == resources[k] && a.state == Collecting && a.direction == HeadingToward(a.position, resources[k].position, b.direction)
  }

  /** collect_resources, for ant `a` that stood at `b` before while its
      target held `content`: without a target or with a depleted one it
      drops the target and explores; out of reach it waits; in reach it
      takes CollectAmount of the node's kind, drops the target and returns.
      The heading is never touched. */
  ghost predicate Collected(a: Ant, b: AntPose, content: int)
    reads a
  {
    && a.direction == b.direction
    && if b.target == null || content <= 0 then
         a.state == Exploring && a.target == null && a.minerals == b.minerals && a.plants == b.plants
       else if !Within(a.position, b.target.position, AntSize + b.target.size) then
         a.state == b.state && a.target == b.target && a.minerals == b.minerals && a.plants == b.plants
       else
         && 0 <= b.minerals <= AntCarryCapacity && 0 <= b.plants <= AntCarryCapacity
         && a.state == Returning && a.target == null
         && if b.target.kind == Rock then
              a.minerals == b.minerals + CollectAmount(b.minerals, AntCarryCapacity, content) && a.plants == b.plants
            else
              a.plants == b.plants + CollectAmount(b.plants, AntCarryCapacity, content) && a.minerals == b.minerals
  }

  /** The target of ant `a` (which held `content` before) lost exactly what
      the ant picked up. */
  ghost predicate Drawn(a: Ant, b: AntPose, content: int)
    reads a, b.target
  {
    b.target != null ==> b.target.content == content - ((a.minerals + a.plants) - (b.minerals + b.plants))
  }

  /** return_to_colony, for ant `a` that stood at `b` before: it heads for
      the nearest colony, and within DepositReach of it empties its load and
      explores again. The target is never touched. */
  ghost predicate Returned(a: Ant, b: AntPose, colonies: seq<Colony>)
    reads a
  {
    && a.target == b.target
    && if |colonies| == 0 then
         a.direction == b.direction && a.minerals == b.minerals && a.plants == b.plants && a.state == b.state
       else
         var c := colonies[NearestIndex(a.position, ColonyPositions(colonies))];
         if Dist2(a.position, c.position) > DepositReach * DepositReach then
           && a.direction == HeadingToward(a.position, c.position, b.direction)
           && a.minerals == b.minerals && a.plants == b.plants && a.state == b.state
         else
           a.minerals == 0 && a.plants == 0 && a.state == Exploring && a.direction == b.direction
  }

  /** The nearest colony took exactly what ant `a` handed over, and every
      other colony's store is as in `stocks`. */
  ghost predicate Deposited(a: Ant, b: AntPose, colonies: seq<Colony>, stocks: seq<(int, int)>)
    reads a, colonies
  {
    && |stocks| == |colonies|
    && (|colonies| > 0 ==>
          var k := NearestIndex(a.position, ColonyPositions(colonies));
          && Stock(colonies[k]) == (stocks[k].0 + (b.minerals - a.minerals), stocks[k].1 + (b.plants - a.plants))
          && forall j :: 0 <= j < |colonies| && colonies[j] != colonies[k] ==> Stock(colonies[j]) == stocks[j])
  }

  /** One step of the state machine for ant `a` that stood at `b`, whose
      target held `content` and whose colonies held `stocks`: the phase that
      `b.state` names ran, and what that phase does not touch kept its
      value. */
  ghost predicate StepTaken(a: Ant, b: AntPose, content: int, stocks: seq<(int, int)>,
                            resources: seq<ResourceNode>, colonies: seq<Colony>)
    reads a, b.target, colonies
  {
    match b.state
    case Exploring =>
      Explored(a, b, resources) && Stocks(colonies) == stocks && (b.target != null ==> b.target.content == content)
    case Collecting =>
      Collected(a, b, content) && Drawn(a, b, content) && Stocks(colonies) == stocks
    case Returning =>
      Returned(a, b, colonies) && Deposited(a, b, colonies, stocks) && (b.target != null ==> b.target.content == content)
  }

  /** The ant's own side of StepTaken, for a caller that no longer knows
      what its target and colonies held when the step ran: the collecting
      phase ran for some content its target held. */
  ghost predicate Behaved(a: Ant, b: AntPose, resources: seq<ResourceNode>, colonies: seq<Colony>)
    reads a
  {
    match b.state
    case Exploring => Explored(a, b, resources)
    case Collecting => exists content :: Collected(a, b, content)
    case Returning => Returned(a, b, colonies)
  }

  lemma StepBehaves(a: Ant, b: AntPose, content: int, stocks: seq<(int, int)>,
                    resources: seq<ResourceNode>, colonies: seq<Colony>)
    requires StepTaken(a, b, content, stocks, resources, colonies)
    ensures Behaved(a, b, resources, colonies)
  {
    if b.state == Collecting {
      assert Collected(a, b, content);
    }
  }

  /** When the node at `k` is in range and none before it is, it is the one
      FirstInRange picks. */
  lemma FirstInRangeAt(p: Point, qs: seq<Point>, radius: real, k: nat)
    requires k < |qs| && Within(p, qs[k], radius)
    requires forall j :: 0 <= j < k ==> !Within(p, qs[j], radius)
    ensures FirstInRange(p, qs, radius) == Some(k)
  {
  }

  // ---------------------------------------------------------------------
  // Snake
  // ---------------------------------------------------------------------

  /** `a` is strictly within COLONY_MIN_SIZE of one of the colony centres. */
  predicate InsideAnyColony(a: Point, cs: seq<Point>)
  {
    exists i :: 0 <= i < |cs| && Within(a, cs[i], ColonyMinSize)
  }

  /** An ant the snake may hunt: within its perception radius and not inside
      a colony. */
  predicate Eligible(head: Point, a: Point, cs: seq<Point>, radius: real)
  {
    Within(head, a, radius) && !InsideAnyColony(a, cs)
  }

  /** The ant the snake's scan settles on: the nearest eligible ant, the first
      one on a tie (the scan replaces its pick only on a strictly smaller
      distance); none when no ant is eligible. */
  function PreyIndex(head: Point, ps: seq<Point>, cs: seq<Point>, radius: real): (k: Option<nat>)
    ensures k.Some? ==> k.value < |ps| && Eligible(head, ps[k.value], cs, radius)
    ensures k.Some? ==> forall j :: 0 <= j < |ps| && Eligible(head, ps[j], cs, radius) ==>
      Dist2(head, ps[k.value]) <= Dist2(head, ps[j])
    ensures k.Some? ==> forall j :: 0 <= j < k.value && Eligible(head, ps[j], cs, radius) ==>
      Dist2(head, ps[k.value]) < Dist2(head, ps[j])
    ensures k.None? <==> forall j :: 0 <= j < |ps| ==> !Eligible(head, ps[j], cs, radius)
    decreases |ps|
  {
    if ps == [] then None
    else
      var last := |ps| - 1;
      var k := PreyIndex(head, ps[..last], cs, radius);
      if !Eligible(head, ps[last], cs, radius) then k
      else if k.None? then Some(last)
      else if Dist2(head, ps[last]) < Dist2(head, ps[k.value]) then Some(last)
      else k
  }

  /** The inner colony loop of the snake's scan. */
  method InColony(a: Point, colonies: seq<Colony>) returns (inside: bool)
    ensures inside == InsideAnyColony(a, ColonyPositions(colonies))
  {
    inside := false;
    var i := 0;
    while i < |colonies|
      invariant 0 <= i <= |colonies|
      invariant forall j :: 0 <= j < i ==> !Within(a, colonies[j].position, ColonyMinSize)
    {
      if Within(a, colonies[i].position, ColonyMinSize) {
        inside := true;
        return;
      }
      i := i + 1;
    }
  }

  class Snake {
    var position: Point
    /** Head first. */
    var body: seq<Point>
    const size: real := 4.0
    var length: int
    var speed: real
    const perceptionRadius: real := 10.0
    var direction: Point
    var isSleeping: bool

    /** The body never holds more than `length` segments. */
    ghost predicate Valid()
      reads this
    {
      1 <= length && |body| <= length
    }

    /** Snake(position, game); the heading signs are random draws. */
    constructor (p: Point, rightward: bool, downward: bool)
      ensures Valid() && position == p && body == [p] && length == 15 && speed == 1.0 && !isSleeping
      ensures direction == Point(Sign(rightward), Sign(downward))
    {
      position, body, length, speed := p, [p], 15, 1.0;
      direction := Point(Sign(rightward), Sign(downward));
      isSleeping := false;
    }

    /** update.  A sleeping snake does nothing.  Otherwise it scans the ants
        for PreyIndex and heads for the prey; if the prey is within its size it
        eats it (the ant leaves the list, its home loses one from its count,
        the snake grows by one) and stops there, before moving.  With no prey
        it may take a random heading (`turn`, with the drawn signs).  Then it
        moves, clamped into the field, and pushes the new head onto its body,
        dropping the tail segment beyond `length`. */
    method Update(ants: seq<Ant>, colonies: seq<Colony>, turn: bool, rightward: bool, downward: bool)
      returns (captured: bool, ants': seq<Ant>, ghost prey: Option<nat>)
      requires Valid() && Census(ants, colonies)
      modifies this, colonies
      ensures Valid() && Census(ants', colonies)
      ensures forall j :: 0 <= j < |colonies| ==>
        && colonies[j].antCount <= old(colonies[j].antCount)
        && colonies[j].minerals == old(colonies[j].minerals) && colonies[j].plants == old(colonies[j].plants)
        && colonies[j].spawnTimer == old(colonies[j].spawnTimer)
      ensures isSleeping == old(isSleeping) && speed == old(speed)
      ensures old(isSleeping) ==>
        && !captured && ants' == ants && position == old(position) && body == old(body)
        && length == old(length) && direction == old(direction)
      ensures !old(isSleeping) ==> prey == old(PreyIndex(position, AntPositions(ants), ColonyPositions(colonies), perceptionRadius))
      ensures !old(isSleeping) ==>
        && (captured <==> prey.Some? && Within(old(position), old(ants[prey.value].position), size))
        && (prey.Some? ==> direction == HeadingToward(old(position), old(ants[prey.value].position), old(direction)))
        && (prey.None? ==> direction == if turn then Point(Sign(rightward), Sign(downward)) else old(direction))
        && (captured ==>
              && ants' == ants[..prey.value] + ants[prey.value + 1..]
              && length == old(length) + 1 && position == old(position) && body == old(body))
      ensures !old(isSleeping) && !captured ==>
        && ants' == ants && length == old(length)
        && position == Advance(old(position), direction, speed)
        && |body| == (if |old(body)| < length then |old(body)| + 1 else length)
        && body[0] == position && body[1..] == old(body)[..|body| - 1]
    {
      ants' := ants;
      captured := false;
      prey := None;
      if isSleeping {
        return;
      }
      var nearest := ScanForPrey(ants, colonies);
      prey := nearest;
      captured, ants' := Pursue(ants, colonies, nearest, turn, rightward, downward);
    }

    /** The part of update after the scan, for a found prey index `nearest`
        (or none): head for the prey and eat it when within reach, or else
        perhaps turn at random, and crawl. */
    method Pursue(ants: seq<Ant>, colonies: seq<Colony>, nearest: Option<nat>, turn: bool, rightward: bool, downward: bool)
      returns (captured: bool, ants': seq<Ant>)
      requires Valid() && Census(ants, colonies)
      requires nearest.Some? ==> nearest.value < |ants|
      modifies this`direction, this`length, this`position, this`body, colonies
      ensures Valid() && Census(ants', colonies)
      ensures forall j :: 0 <= j < |colonies| ==>
        && colonies[j].antCount <= old(colonies[j].antCount)
        && colonies[j].minerals == old(colonies[j].minerals) && colonies[j].plants == old(colonies[j].plants)
        && colonies[j].spawnTimer == old(colonies[j].spawnTimer)
      ensures captured <==> nearest.Some? && Within(old(position), old(ants[nearest.value].position), size)
      ensures nearest.Some? ==> direction == HeadingToward(old(position), old(ants[nearest.value].position), old(direction))
      ensures nearest.None? ==> direction == if turn then Point(Sign(rightward), Sign(downward)) else old(direction)
      ensures captured ==>
        && ants' == ants[..nearest.value] + ants[nearest.value + 1..]
        && length == old(length) + 1 && position == old(position) && body == old(body)
      ensures !captured ==>
        && ants' == ants && length == old(length)
        && position == Advance(old(position), direction, speed)
        && |body| == (if |old(body)| < length then |old(body)| + 1 else length)
        && body[0] == position && body[1..] == old(body)[..|body| - 1]
    {
      ants' := ants;
      captured := false;
      if nearest.Some? {
        var prey := ants[nearest.value];
        direction := HeadingToward(position, prey.position, direction);
        if Within(position, prey.position, size) {
          ants' := Eat(ants, nearest.value, colonies);
          captured := true;
          return;
        }
      } else if turn {
        direction := Point(Sign(rightward), Sign(downward));
      }
      Crawl();
    }

    /** The scan of update: every ant is checked in list order; one within
        the perception radius and strictly nearer than the best so far is
        taken unless it is inside a colony. */
    method ScanForPrey(ants: seq<Ant>, colonies: seq<Colony>) returns (nearest: Option<nat>)
      ensures nearest == PreyIndex(position, AntPositions(ants), ColonyPositions(colonies), perceptionRadius)
    {
      ghost var ps := AntPositions(ants);
      ghost var cs := ColonyPositions(colonies);
      nearest := None;
      var nearestDist := 0.0;
      var i := 0;
      while i < |ants|
        invariant 0 <= i <= |ants|
        invariant nearest == PreyIndex(position, ps[..i], cs, perceptionRadius)
        invariant nearest.Some? ==> nearest.value < i && nearestDist == Dist2(position, ants[nearest.value].position)
      {
        var a := ants[i];
        var d := Dist2(position, a.position);
        assert ps[..i + 1][..i] == ps[..i];
        if Within(position, a.position, perceptionRadius) && (nearest.None? || d < nearestDist) {
          var inside := InColony(a.position, colonies);
          if !inside {
            nearest := Some(i);
            nearestDist := d;
          }
        }
        i := i + 1;
      }
      assert ps[..|ants|] == ps;
    }

    /** The capture of update: the ant leaves the list, its home colony (if
        any) counts one ant fewer, and the snake grows by one segment. */
    method Eat(ants: seq<Ant>, k: nat, colonies: seq<Colony>) returns (ants': seq<Ant>)
      requires k < |ants| && Census(ants, colonies)
      modifies this`length, colonies
      ensures ants' == ants[..k] + ants[k + 1..] && length == old(length) + 1
      ensures Census(ants', colonies)
      ensures forall j :: 0 <= j < |colonies| ==>
        && colonies[j].antCount == old(colonies[j].antCount) - (if colonies[j] == ants[k].home then 1 else 0)
        && colonies[j].minerals == old(colonies[j].minerals) && colonies[j].plants == old(colonies[j].plants)
        && colonies[j].spawnTimer == old(colonies[j].spawnTimer)
    {
      var home := ants[k].home;
      ants' := ants[..k] + ants[k + 1..];
      if home != null {
        home.antCount := home.antCount - 1;
      }
      length := length + 1;
      forall j | 0 <= j < |colonies|
        ensures colonies[j].antCount == HomeCount(ants', colonies[j])
      {
        HomeCountRemove(ants, k, colonies[j]);
      }
      forall j | 0 <= j < |ants'| && ants'[j].home != null
        ensures ants'[j].home in colonies
      {
        assert ants'[j] in ants;
      }
    }

    /** The move of update: one step along the heading, clamped into the
        field; the new head is pushed onto the body and the tail segment
        beyond `length` is dropped. */
    method Crawl()
      requires Valid()
      modifies this`position, this`body
      ensures Valid() && position == Advance(old(position), direction, speed)
      ensures |body| == (if |old(body)| < length then |old(body)| + 1 else length)
      ensures body[0] == position && body[1..] == old(body)[..|body| - 1]
    {
      var next := Advance(position, direction, speed);
      body := [next] + body;
      if |body| > length {
        body := body[..|body| - 1];
      }
      position := next;
    }

    /** start_sleeping: the body is laid out on the coil (computed with
        trigonometry, so supplied), one point per segment; the head stays. */
    method StartSleeping(coil: seq<Point>)
      requires Valid() && |coil| == |body|
      modifies this`isSleeping, this`body
      ensures Valid() && isSleeping && body == coil
    {
      isSleeping := true;
      body := coil;
    }

    /** wake_up: straighten the body into `length` copies of the head. */
    method WakeUp()
      requires Valid()
      modifies this`isSleeping, this`body
      ensures Valid() && !isSleeping && |body| == length
      ensures forall i :: 0 <= i < |body| ==> body[i] == position
    {
      isSleeping := false;
      var head := position;
      body := seq(length, _ => head);
    }
  }

  // ---------------------------------------------------------------------
  // Spider and web
  // ---------------------------------------------------------------------

  datatype SpiderState = Wandering | Fleeing | Sleeping | Dying

  /** A colony within COLONY_MAX_SIZE * 2 makes the spider consider its odds. */
  const SpiderAlertRadius: real := 2.0 * ColonyMaxSize
  /** Ants within 50 of the spider count as a challenge. */
  const SpiderCrowdRadius: real := 50.0
  const SpiderCrowd: nat := 3

  /** How many of `ps` lie strictly within `radius` of `p`. */
  function CountWithin(p: Point, ps: seq<Point>, radius: real): (n: nat)
    ensures n <= |ps|
    ensures n == 0 <==> forall j :: 0 <= j < |ps| ==> !Within(p, ps[j], radius)
  {
    if ps == [] then 0
    else CountWithin(p, ps[1..], radius) + (if Within(p, ps[0], radius) then 1 else 0)
  }

  /** One axis of a spider move: a coordinate past the edge buffer is put
      back on it and the heading component on that axis reverses. */
  function Bounce(v: real, d: real, extent: real): (r: (real, real))
    requires 2.0 * EdgeBuffer <= extent
    ensures EdgeBuffer <= r.0 <= extent - EdgeBuffer
    ensures r.1 == d || r.1 == -d
    ensures d != 0.0 ==> (r.1 == -d <==> v < EdgeBuffer || extent - EdgeBuffer < v)
    ensures EdgeBuffer <= v <= extent - EdgeBuffer ==> r.0 == v
  {
    if v < EdgeBuffer then (EdgeBuffer, -d)
    else if v > extent - EdgeBuffer then (extent - EdgeBuffer, -d)
    else (v, d)
  }

  /** `pace` along heading component `d`, then bounced on that axis. */
  function GlideAxis(v: real, d: real, pace: real, extent: real): (r: (real, real))
    requires 2.0 * EdgeBuffer <= extent
    ensures EdgeBuffer <= r.0 <= extent - EdgeBuffer
  {
    Bounce(v + d * pace, d, extent)
  }

  /** A whole spider move: `pace` along heading `d` from `p`, each axis
      bounced on its own; the new position and the new heading. */
  function GlideStep(p: Point, d: Point, pace: real): (r: (Point, Point))
    ensures InSpiderBounds(r.0)
    ensures (r.0.x, r.1.x) == GlideAxis(p.x, d.x, pace, WindowWidth)
    ensures (r.0.y, r.1.y) == GlideAxis(p.y, d.y, pace, WindowHeight)
  {
    var alongX := GlideAxis(p.x, d.x, pace, WindowWidth);
    var alongY := GlideAxis(p.y, d.y, pace, WindowHeight);
    (Point(alongX.0, alongY.0), Point(alongX.1, alongY.1))
  }

  /** The unit heading from colony position `c` back to `p`, where `norm`
      is their Euclidean distance. */
  function AwayFrom(p: Point, c: Point, norm: real): (d: Point)
    requires norm > 0.0
    ensures (d.x < 0.0 <==> p.x < c.x) && (d.y < 0.0 <==> p.y < c.y)
    ensures (d.x == 0.0 <==> p.x == c.x) && (d.y == 0.0 <==> p.y == c.y)
  {
    Point(-(c.x - p.x) / norm, -(c.y - p.y) / norm)
  }

  /** With `norm` the true distance, the flee heading is a unit vector. */
  lemma {:induction false} AwayFromUnit(p: Point, c: Point, norm: real)
    requires norm > 0.0 && norm * norm == Dist2(p, c)
    ensures Dist2(Point(0.0, 0.0), AwayFrom(p, c, norm)) == 1.0
  {
    var d := AwayFrom(p, c, norm);
    var dx, dy := c.x - p.x, c.y - p.y;
    assert d.x * norm == -dx && d.y * norm == -dy;
    calc {
      Dist2(Point(0.0, 0.0), d) * (norm * norm);
    ==
      (d.x * norm) * (d.x * norm) + (d.y * norm) * (d.y * norm);
    ==
      dx * dx + dy * dy;
    ==
      norm * norm;
    }
  }

  /** How far the spider goes in `dt` milliseconds at `speed`. */
  function Pace(speed: real, dt: int): real
  {
    speed * dt as real
  }

  predicate InSpiderBounds(p: Point)
  {
    EdgeBuffer <= p.x <= WindowWidth - EdgeBuffer && EdgeBuffer <= p.y <= WindowHeight - EdgeBuffer
  }

  class Spider {
    var position: Point
    const size: real := 18.0
    var speed: real
    var state: SpiderState
    var homePlant: ResourceNode?
    var fleeTimer: int
    var fleeDirection: Point
    var webChance: real
    var webCooldown: int

    constructor (p: Point)
      ensures position == p && speed == 0.04 && state == Wandering && homePlant == null
      ensures fleeTimer == 0 && fleeDirection == Point(0.0, 0.0) && webChance == 0.005 && webCooldown == 2000
    {
      position, speed, state, homePlant := p, 0.04, Wandering, null;
      fleeTimer, fleeDirection, webChance, webCooldown := 0, Point(0.0, 0.0), 0.005, 2000;
    }

    /** The bounded move shared by wandering and fleeing: `speed * dt` along
        the flee heading, each axis bounced back inside the edge buffer. */
    method Glide(dt: int)
      modifies this`position, this`fleeDirection
      ensures (position, fleeDirection) == GlideStep(old(position), old(fleeDirection), Pace(speed, dt))
    {
      var pace := Pace(speed, dt);
      var bounceX := GlideAxis(position.x, fleeDirection.x, pace, WindowWidth);
      var bounceY := GlideAxis(position.y, fleeDirection.y, pace, WindowHeight);
      fleeDirection := Point(bounceX.1, bounceY.1);
      position := Point(bounceX.0, bounceY.0);
    }

    /** _update_wandering.  When at least three ants are within 50 and a
        colony is within 50, the first such colony decides: with `fleeRoll`
        below 0.7 the spider flees for 3 s directly away from it, laying webs
        more often, otherwise it dies; either way it does not move.  Else it
        may take a new heading (`turn`, `turnHeading` from a random angle) and
        glides.  `norms[i]` is the Euclidean distance to colony `i`; a flee
        from a colony at distance 0 divides by zero in the source, reported
        here as `crashed`. */
    method UpdateWandering(dt: int, colonies: seq<Colony>, antPositions: seq<Point>, norms: seq<real>,
                           fleeRoll: real, turn: bool, turnHeading: Point) returns (crashed: bool, ghost alarm: Option<nat>)
      requires |norms| == |colonies|
      requires forall i :: 0 <= i < |colonies| ==> 0.0 <= norms[i] && norms[i] * norms[i] == Dist2(position, colonies[i].position)
      modifies this`position, this`fleeDirection, this`state, this`fleeTimer, this`webChance
      ensures alarm == if CountWithin(old(position), antPositions, SpiderCrowdRadius) >= SpiderCrowd
                       then FirstInRange(old(position), ColonyPositions(colonies), SpiderAlertRadius)
                       else None
      ensures alarm.Some? ==> position == old(position) && alarm.value < |colonies|
      ensures alarm.Some? && fleeRoll < 0.7 ==>
        state == Fleeing && fleeTimer == 3000 && (crashed <==> norms[alarm.value] == 0.0)
      ensures alarm.Some? && fleeRoll < 0.7 && !crashed ==>
        webChance == 0.1 && fleeDirection == AwayFrom(position, colonies[alarm.value].position, norms[alarm.value])
      ensures alarm.Some? && fleeRoll >= 0.7 ==> state == Dying && !crashed && fleeDirection == old(fleeDirection)
      ensures alarm.None? ==>
        && !crashed && state == old(state) && fleeTimer == old(fleeTimer) && webChance == old(webChance)
        && (position, fleeDirection) == GlideStep(old(position), if turn then turnHeading else old(fleeDirection), Pace(speed, dt))
    {
      crashed := false;
      var found := AlarmingColony(colonies, antPositions);
      alarm := found;
      if found.Some? {
        var k := found.value;
        if fleeRoll < 0.7 {
          state := Fleeing;
          fleeTimer := 3000;
          if norms[k] == 0.0 {
            crashed := true;
            return;
          }
          fleeDirection := AwayFrom(position, colonies[k].position, norms[k]);
          webChance := 0.1;
        } else {
          state := Dying;
        }
        return;
      }
      Roam(dt, turn, turnHeading);
    }

    /** The random movement of _update_wandering: possibly a new heading
        (`turn`, with `turnHeading` from a random angle), then a glide. */
    method Roam(dt: int, turn: bool, turnHeading: Point)
      modifies this`position, this`fleeDirection
      ensures (position, fleeDirection) == GlideStep(old(position), if turn then turnHeading else old(fleeDirection), Pace(speed, dt))
    {
      if turn {
        fleeDirection := turnHeading;
      }
      Glide(dt);
    }

    /** The colony scan of _update_wandering: the colonies are checked in
        list order and the first one within SpiderAlertRadius decides, but
        only when at least SpiderCrowd ants are within SpiderCrowdRadius. */
    method AlarmingColony(colonies: seq<Colony>, antPositions: seq<Point>) returns (k: Option<nat>)
      ensures k == if CountWithin(position, antPositions, SpiderCrowdRadius) >= SpiderCrowd
                   then FirstInRange(position, ColonyPositions(colonies), SpiderAlertRadius)
                   else None
    {
      var i := 0;
      while i < |colonies|
        invariant 0 <= i <= |colonies|
        invariant CountWithin(position, antPositions, SpiderCrowdRadius) < SpiderCrowd ||
          forall j :: 0 <= j < i ==> !Within(position, colonies[j].position, SpiderAlertRadius)
      {
        if Within(position, colonies[i].position, SpiderAlertRadius) {
          var nearby := CountWithin(position, antPositions, SpiderCrowdRadius);
          if nearby >= SpiderCrowd {
            FirstInRangeAt(position, ColonyPositions(colonies), SpiderAlertRadius, i);
            return Some(i);
          }
        }
        i := i + 1;
      }
      return None;
    }

    /** _update_fleeing: count the flee timer down; when it runs out, wander
        again at the normal web chance.  Otherwise possibly lay a web where the
        spider stands (`layWeb` is the 5% draw), which sets a 1.5 s cooldown,
        and glide. */
    method UpdateFleeing(dt: int, layWeb: bool) returns (web: SpiderWeb?)
      modifies this`position, this`fleeDirection, this`state, this`fleeTimer, this`webChance, this`webCooldown
      ensures fleeTimer == old(fleeTimer) - dt
      ensures fleeTimer <= 0 ==>
        && state == Wandering && webChance == 0.02 && web == null
        && position == old(position) && fleeDirection == old(fleeDirection) && webCooldown == old(webCooldown)
      ensures fleeTimer > 0 ==>
        && state == old(state) && webChance == old(webChance)
        && (layWeb <==> web != null)
        && (web != null ==> fresh(web) && web.Pristine() && web.position == old(position) && webCooldown == 1500)
        && (web == null ==> webCooldown == old(webCooldown))
      ensures fleeTimer > 0 ==> (position, fleeDirection) == GlideStep(old(position), old(fleeDirection), Pace(speed, dt))
    {
      web := null;
      fleeTimer := fleeTimer - dt;
      if fleeTimer <= 0 {
        state := Wandering;
        webChance := 0.02;
        return;
      }
      if layWeb {
        web := new SpiderWeb(position);
        webCooldown := 1500;
      }
      Glide(dt);
    }

    /** _find_shelter: with no plant or bush there is no shelter.  Otherwise
        the nearest of `plants + bushes` (first on a tie) becomes the home: the
        previous home, if it carries the spider flag, is marked free, the new
        one, if it carries the flag, is marked occupied, and the spider
        sleeps. */
    method FindShelter(plants: seq<ResourceNode>, bushes: seq<ResourceNode>) returns (found: bool)
      modifies this`homePlant, this`state, homePlant, plants, bushes
      ensures found <==> |plants + bushes| > 0
      ensures !found ==> homePlant == old(homePlant) && state == old(state)
      ensures !found && old(homePlant) != null ==> old(homePlant).hasSpider == old(homePlant.hasSpider)
      ensures found ==>
        var spots := plants + bushes;
        var nearest := spots[NearestIndex(position, NodePositions(spots))];
        && homePlant == nearest && state == Sleeping
        && nearest.hasSpider == (if old(nearest.hasSpider).Some? then Some(true) else None)
        && (old(homePlant) != null && old(homePlant) != nearest ==>
              old(homePlant).hasSpider == (if old(homePlant.hasSpider).Some? then Some(false) else None))
        && forall i :: 0 <= i < |spots| && spots[i] != nearest && spots[i] != old(homePlant) ==>
             spots[i].hasSpider == old(spots[i].hasSpider)
      ensures forall i :: 0 <= i < |plants + bushes| ==> (plants + bushes)[i].content == old((plants + bushes)[i].content)
    {
      var spots := plants + bushes;
      if |spots| == 0 {
        return false;
      }
      var nearest := spots[NearestIndex(position, NodePositions(spots))];
      if homePlant != null && homePlant.hasSpider.Some? {
        homePlant.hasSpider := Some(false);
      }
      homePlant := nearest;
      if nearest.hasSpider.Some? {
        nearest.hasSpider := Some(true);
      }
      state := Sleeping;
      found := true;
    }
  }

  /** A web holds a caught ant for this long before it breaks. */
  const WebHoldTime: int := 5000

  class SpiderWeb {
    const position: Point
    const size: real := 16.0
    var affectedAnts: set<Ant>
    var destroyed: bool
    var jumpTimer: map<Ant, int>

    /** Every caught ant has a timer. */
    ghost predicate Valid()
      reads this
    {
      affectedAnts <= jumpTimer.Keys
    }

    ghost predicate Pristine()
      reads this
    {
      Valid() && affectedAnts == {} && !destroyed && jumpTimer == map[]
    }

    constructor (p: Point)
      ensures Pristine() && position == p
    {
      position := p;
      affectedAnts, destroyed, jumpTimer := {}, false, map[];
    }

    /** affects_ant.  A caught ant's timer advances by `dt`; once it reaches
        WebHoldTime the web breaks and releases the ant, clearing its slow
        timer.  An ant not yet caught is caught when strictly within half the
        web's size: its timer starts at 0 and it is slowed for 5 s.  Returns
        whether the web holds the ant on this call. */
    method AffectsAnt(ant: Ant, dt: int) returns (caught: bool)
      requires Valid()
      modifies this, ant`webSlowTimer
      ensures Valid()
      ensures old(ant in affectedAnts) ==>
        && caught && jumpTimer == old(jumpTimer)[ant := old(jumpTimer[ant]) + dt]
        && (jumpTimer[ant] >= WebHoldTime ==>
              destroyed && affectedAnts == old(affectedAnts) - {ant} && ant.webSlowTimer == 0)
        && (jumpTimer[ant] < WebHoldTime ==>
              destroyed == old(destroyed) && affectedAnts == old(affectedAnts) && ant.webSlowTimer == old(ant.webSlowTimer))
      ensures old(ant !in affectedAnts) ==>
        && (caught <==> Within(position, ant.position, size / 2.0))
        && (caught ==>
              && affectedAnts == old(affectedAnts) + {ant} && jumpTimer == old(jumpTimer)[ant := 0]
              && destroyed == old(destroyed) && ant.webSlowTimer == WebHoldTime)
        && (!caught ==>
              && affectedAnts == old(affectedAnts) && jumpTimer == old(jumpTimer)
              && destroyed == old(destroyed) && ant.webSlowTimer == old(ant.webSlowTimer))
    {
      if ant in affectedAnts {
        jumpTimer := jumpTimer[ant := jumpTimer[ant] + dt];
        if jumpTimer[ant] >= WebHoldTime {
          destroyed := true;
          affectedAnts := affectedAnts - {ant};
          ant.webSlowTimer := 0;
        }
        return true;
      }
      if Within(position, ant.position, size / 2.0) {
        affectedAnts := affectedAnts + {ant};
        jumpTimer := jumpTimer[ant := 0];
        ant.webSlowTimer := WebHoldTime;
        return true;
      }
      return false;
    }
  }
}
