// The tick driver of the game (src/game.py): the day/night cycle, the music
// mood of the local GameState, periodic resource spawning with its position
// search, colony placement on click, pruning of depleted resources and the
// order in which one update moves the world.

module GameLoop {
  import opened Wrappers
  import opened Geometry
  import opened Resources
  import opened Entities

  // ---------------------------------------------------------------------
  // Constants (src/constants.py)
  // ---------------------------------------------------------------------

  /** DAY_NIGHT['CYCLE_DURATION']: one day and one night, in milliseconds. */
  const CycleDuration: int := 180000
  /** DAY_NIGHT['NIGHT_VISIBILITY']: how far an ant may stray at night. */
  const NightVisibility: real := 40.0
  const AntDaySpeed: real := 0.8
  const AntNightSpeed: real := 0.6
  const AntDayPerception: real := 40.0
  const AntNightPerception: real := 25.0
  const SnakeDaySpeed: real := 0.5

  const ResourceSpawnInterval: int := 4000
  const MaxRocks: int := 25
  const MaxPlants: int := 25
  const MaxBushes: int := 45

  /** What a full node of each kind is reckoned to hold, for abundance. */
  const RockCapacity: int := 150
  const TreeCapacity: int := 100
  const BushCapacity: int := 50

  /** The spacing find_valid_resource_position tries to keep, its number of
      tries, and the margin kept from the window edge by every draw. */
  const MinResourceSpacing: real := 30.0
  const PlacementAttempts: nat := 10
  const SpawnMargin: real := 20.0

  /** GameState recomputes at most once a second. */
  const MoodInterval: int := 1000
  /** A snake this far from the nearest colony means no danger at all. */
  const DangerRange: real := 300.0
  /** The music's own day/night: two minutes each. */
  const MusicHalfCycle: int := 120000

  // ---------------------------------------------------------------------
  // Day and night
  // ---------------------------------------------------------------------

  datatype Phase = Day | Night

  /** The phase at time `now` of a cycle that started at `cycleStart`: night
      is the second half of each cycle. */
  function PhaseAt(now: int, cycleStart: int): Phase
  {
    if (now - cycleStart) % CycleDuration >= CycleDuration / 2 then Night else Day
  }

  /** Within the first cycle, night holds exactly from half way on. */
  lemma PhaseInFirstCycle(now: int, cycleStart: int)
    requires cycleStart <= now < cycleStart + CycleDuration
    ensures PhaseAt(now, cycleStart) == Night <==> now - cycleStart >= 90000
  {
  }

  /** The phase repeats every cycle. */
  lemma {:induction false} PhasePeriodic(now: int, cycleStart: int, k: nat)
    ensures PhaseAt(now + k * CycleDuration, cycleStart) == PhaseAt(now, cycleStart)
  {
    if k > 0 {
      PhasePeriodic(now, cycleStart, k - 1);
      var t := now + (k - 1) * CycleDuration - cycleStart;
      assert now + k * CycleDuration - cycleStart == t + CycleDuration;
      ShiftByCycle(t);
    }
  }

  lemma ShiftByCycle(t: int)
    ensures (t + CycleDuration) % CycleDuration == t % CycleDuration
  {
  }

  /** The music's time of day: day in even two-minute periods. */
  function MusicPhase(now: int): Phase
  {
    if (now / MusicHalfCycle) % 2 == 0 then Day else Night
  }

  // ---------------------------------------------------------------------
  // Music mood (GameState)
  // ---------------------------------------------------------------------

  datatype Mood = Peaceful | Ambient | Floating | Dreamy

  /** _update_mood's rule: danger first, then intensity, then scarcity. */
  function SelectMood(danger: real, intensity: real, abundance: real): (m: Mood)
    ensures m == Ambient <==> danger > 0.7
    ensures m == Floating <==> danger <= 0.7 && intensity > 0.6
    ensures m == Dreamy <==> danger <= 0.7 && intensity <= 0.6 && abundance < 0.3
    ensures m == Peaceful <==> danger <= 0.7 && intensity <= 0.6 && abundance >= 0.3
  {
    if danger > 0.7 then Ambient
    else if intensity > 0.6 then Floating
    else if abundance < 0.3 then Dreamy
    else Peaceful
  }

  /** How many ants carry something. */
  function ActiveCount(ants: seq<Ant>): (n: nat)
    reads ants
    ensures n <= |ants|
    ensures n == 0 <==> forall i :: 0 <= i < |ants| ==> ants[i].minerals <= 0 && ants[i].plants <= 0
  {
    if ants == [] then 0
    else ActiveCount(ants[..|ants| - 1])
         + (var a := ants[|ants| - 1]; if a.minerals > 0 || a.plants > 0 then 1 else 0)
  }

  /** `min(1, active / max(n, 1) * 0.5)`: at most one half, so the intensity
      alone never reaches the 0.6 the floating mood asks for. */
  function Intensity(active: nat, n: nat): (r: real)
    requires active <= n
    ensures 0.0 <= r <= 0.5
    ensures r == 0.0 <==> active == 0
    ensures active == n && n > 0 ==> r == 0.5
  {
    var ratio := active as real / (if n > 1 then n else 1) as real;
    RatioBounds(active as real, (if n > 1 then n else 1) as real);
    Min(1.0, ratio * 0.5)
  }

  /** A share of a positive whole lies in [0, 1], and is 0 only for none. */
  lemma RatioBounds(part: real, whole: real)
    requires 0.0 <= part <= whole && whole > 0.0
    ensures 0.0 <= part / whole <= 1.0
    ensures part / whole == 0.0 <==> part == 0.0
  {
    var q := part / whole;
    assert q * whole == part;
  }

  /** `max(0, min(1, 1 - closest / 300))`. */
  function Danger(closest: real): (r: real)
    ensures 0.0 <= r <= 1.0
    ensures closest >= DangerRange ==> r == 0.0
    ensures 0.0 <= closest <= DangerRange ==> r == 1.0 - closest / DangerRange
  {
    Max(0.0, Min(1.0, 1.0 - closest / DangerRange))
  }

  /** The least of a non-empty list of distances. */
  function Least(ds: seq<real>): (m: real)
    requires |ds| > 0
    ensures m in ds
    ensures forall i :: 0 <= i < |ds| ==> m <= ds[i]
  {
    if |ds| == 1 then ds[0]
    else
      var rest := Least(ds[..|ds| - 1]);
      if ds[|ds| - 1] < rest then ds[|ds| - 1] else rest
  }

  /** What the nodes hold together. */
  function TotalContent(nodes: seq<ResourceNode>): (t: int)
    reads nodes
    ensures (forall i :: 0 <= i < |nodes| ==> nodes[i].content >= 0) ==> t >= 0
  {
    if nodes == [] then 0 else TotalContent(nodes[..|nodes| - 1]) + nodes[|nodes| - 1].content
  }

  /** What the nodes could hold when full. */
  function Capacity(rockCount: nat, plantCount: nat, bushCount: nat): (c: nat)
    ensures c == 0 <==> rockCount == 0 && plantCount == 0 && bushCount == 0
  {
    rockCount * RockCapacity + plantCount * TreeCapacity + bushCount * BushCapacity
  }

  /** `total / max` with an empty world counted as fully stocked. */
  function Abundance(total: int, capacity: nat): (r: real)
    ensures capacity == 0 ==> r == 1.0
    ensures capacity > 0 && 0 <= total <= capacity ==> 0.0 <= r <= 1.0
    ensures capacity > 0 && total < 0 ==> r < 0.0
  {
    if capacity > 0 then total as real / capacity as real else 1.0
  }

  /** With intensity as GameState computes it, the floating mood is never
      chosen: the music moves only between ambient, dreamy and peaceful. */
  lemma FloatingUnreachable(active: nat, n: nat, danger: real, abundance: real)
    requires active <= n
    ensures SelectMood(danger, Intensity(active, n), abundance) != Floating
  {
  }

  class GameState {
    var intensity: real
    var dangerLevel: real
    var resourceAbundance: real
    var timeOfDay: Phase
    var currentMood: Mood
    var transitionRequested: bool
    var lastStateUpdate: int

    /** GameState() at time `now`. */
    constructor (now: int)
      ensures intensity == 0.0 && dangerLevel == 0.0 && resourceAbundance == 1.0
      ensures timeOfDay == Day && currentMood == Peaceful && !transitionRequested
      ensures lastStateUpdate == now
    {
      intensity, dangerLevel, resourceAbundance := 0.0, 0.0, 1.0;
      timeOfDay, currentMood, transitionRequested := Day, Peaceful, false;
      lastStateUpdate := now;
    }

    /** The levels stay in their ranges. */
    ghost predicate Valid()
      reads this
    {
      0.0 <= intensity <= 0.5 && 0.0 <= dangerLevel <= 1.0
    }

    /** update: at most once every MoodInterval, recompute intensity from the
        share of ants carrying something, danger from the snake's distance to
        the nearest colony (kept as it was when there is no colony), abundance
        from the resources left, the music's time of day, and the mood.
        `norms[j]` is the Euclidean distance from the snake to colony `j`. */
    method Update(now: int, ants: seq<Ant>, colonies: seq<Colony>, snakeHead: Point, norms: seq<real>,
                  rocks: seq<ResourceNode>, plants: seq<ResourceNode>, bushes: seq<ResourceNode>)
      requires Valid()
      requires |norms| == |colonies|
      requires forall j :: 0 <= j < |norms| ==> 0.0 <= norms[j] && norms[j] * norms[j] == Dist2(snakeHead, colonies[j].position)
      modifies this
      ensures Valid()
      ensures now - old(lastStateUpdate) < MoodInterval ==>
        && lastStateUpdate == old(lastStateUpdate) && intensity == old(intensity)
        && dangerLevel == old(dangerLevel) && resourceAbundance == old(resourceAbundance)
        && timeOfDay == old(timeOfDay) && currentMood == old(currentMood)
        && transitionRequested == old(transitionRequested)
      ensures now - old(lastStateUpdate) >= MoodInterval ==>
        && lastStateUpdate == now
        && intensity == Intensity(old(ActiveCount(ants)), |ants|)
        && (|colonies| == 0 ==> dangerLevel == old(dangerLevel))
        && (|colonies| > 0 ==> dangerLevel == Danger(Least(norms)))
        && resourceAbundance == Abundance(old(TotalContent(rocks) + TotalContent(plants) + TotalContent(bushes)),
                                          Capacity(|rocks|, |plants|, |bushes|))
        && timeOfDay == MusicPhase(now)
        && currentMood == SelectMood(dangerLevel, intensity, resourceAbundance)
        && transitionRequested == (old(transitionRequested) || currentMood != old(currentMood))
    {
      if now - lastStateUpdate < MoodInterval {
        return;
      }
      var total := TotalContent(rocks) + TotalContent(plants) + TotalContent(bushes);
      var danger := dangerLevel;
      if |colonies| > 0 {
        var closest := ClosestColony(norms);
        danger := Danger(closest);
      }
      var active := Intensity(ActiveCount(ants), |ants|);
      var abundance := Abundance(total, Capacity(|rocks|, |plants|, |bushes|));
      lastStateUpdate, intensity, dangerLevel, resourceAbundance, timeOfDay := now, active, danger, abundance, MusicPhase(now);
      UpdateMood();
    }

    /** The distance list of update and its minimum. */
    static method ClosestColony(norms: seq<real>) returns (closest: real)
      requires |norms| > 0
      ensures closest == Least(norms)
    {
      closest := norms[0];
      var i := 1;
      while i < |norms|
        invariant 1 <= i <= |norms|
        invariant closest == Least(norms[..i])
      {
        assert norms[..i + 1][..i] == norms[..i];
        if norms[i] < closest {
          closest := norms[i];
        }
        i := i + 1;
      }
      assert norms[..i] == norms;
    }

    /** _update_mood: pick the mood; a change requests a transition. */
    method UpdateMood()
      modifies this`currentMood, this`transitionRequested
      ensures currentMood == SelectMood(dangerLevel, intensity, resourceAbundance)
      ensures transitionRequested == (old(transitionRequested) || currentMood != old(currentMood))
    {
      var mood := SelectMood(dangerLevel, intensity, resourceAbundance);
      if mood != currentMood {
        currentMood := mood;
        transitionRequested := true;
      }
    }
  }

  // ---------------------------------------------------------------------
  // Resource placement and spawning
  // ---------------------------------------------------------------------

  /** Where every random placement lands: `randint(20, W - 20)` by
      `randint(20, H - 20)`. */
  predicate InSpawnBox(p: Point)
  {
    SpawnMargin <= p.x <= WindowWidth - SpawnMargin && SpawnMargin <= p.y <= WindowHeight - SpawnMargin
  }

  /** No resource is closer than MinResourceSpacing (squared test). */
  predicate Clear(p: Point, ps: seq<Point>)
  {
    forall j :: 0 <= j < |ps| ==> Dist2(p, ps[j]) >= MinResourceSpacing * MinResourceSpacing
  }

  /** The first try that is clear of every resource, if any. */
  function FirstClear(tries: seq<Point>, ps: seq<Point>): (k: Option<nat>)
    ensures k.Some? ==> k.value < |tries| && Clear(tries[k.value], ps)
    ensures k.Some? ==> forall j :: 0 <= j < k.value ==> !Clear(tries[j], ps)
    ensures k.None? <==> forall j :: 0 <= j < |tries| ==> !Clear(tries[j], ps)
  {
    if tries == [] then None
    else if Clear(tries[0], ps) then Some(0)
    else
      match FirstClear(tries[1..], ps)
      case None => None
      case Some(k) => Some(k + 1)
  }

  /** The position find_valid_resource_position settles on: the first clear
      try, or else the extra draw `fallback`. */
  function Placement(tries: seq<Point>, fallback: Point, ps: seq<Point>): (p: Point)
    ensures Clear(p, ps) || p == fallback
    ensures p in tries || p == fallback
    ensures (forall j :: 0 <= j < |tries| ==> !Clear(tries[j], ps)) ==> p == fallback
    ensures (exists j :: 0 <= j < |tries| && Clear(tries[j], ps)) ==> Clear(p, ps) && p in tries
    ensures (forall j :: 0 <= j < |tries| ==> InSpawnBox(tries[j])) && InSpawnBox(fallback) ==> InSpawnBox(p)
  {
    match FirstClear(tries, ps)
    case Some(k) => tries[k]
    case None => fallback
  }

  /** The random draws behind one possible spawn: the roll against the spawn
      chance, the ten placement tries and the fallback draw, the rock shape
      and the berry coin of a bush. */
  datatype SpawnDraw = SpawnDraw(roll: real, tries: seq<Point>, fallback: Point, shape: nat, berries: bool)

  predicate ValidSpawnDraw(d: SpawnDraw)
  {
    && |d.tries| == PlacementAttempts
    && (forall j :: 0 <= j < |d.tries| ==> InSpawnBox(d.tries[j]))
    && InSpawnBox(d.fallback)
    && d.shape < |RockShapes|
  }

  /** `range(min(cap, needed))`: how many spawns a batch considers. */
  function BatchSize(cap: nat, needed: int): (n: nat)
    ensures n <= cap
    ensures needed <= 0 ==> n == 0
    ensures n <= needed || n == 0
  {
    if needed <= 0 then 0 else if needed < cap then needed else cap
  }

  /** The spawn chance for a kind whose count is below `low` of its maximum. */
  function SpawnChance(count: nat, max: int, low: real, high: real, otherwise: real): real
    requires max > 0
  {
    if count as real / max as real < low then high else otherwise
  }

  /** How many of the first `n` draws roll below `chance`. */
  function SpawnCount(draws: seq<SpawnDraw>, n: nat, chance: real): (c: nat)
    requires n <= |draws|
    ensures c <= n
  {
    if n == 0 then 0
    else SpawnCount(draws, n - 1, chance) + (if draws[n - 1].roll < chance then 1 else 0)
  }

  /** A batch never pushes a kind past its maximum, and never adds to a kind
      already at or over it. */
  lemma BatchCapped(count: nat, max: int, cap: nat, draws: seq<SpawnDraw>, chance: real)
    requires BatchSize(cap, max - count) <= |draws|
    ensures count + SpawnCount(draws, BatchSize(cap, max - count), chance) <= if count < max then max else count
    ensures count >= max ==> SpawnCount(draws, BatchSize(cap, max - count), chance) == 0
  {
  }

  /** Keeps the nodes that still hold something, in order. */
  function Surviving(nodes: seq<ResourceNode>): (r: seq<ResourceNode>)
    reads nodes
    ensures |r| <= |nodes|
    ensures forall i :: 0 <= i < |r| ==> r[i] in nodes && r[i].content > 0
    ensures forall i :: 0 <= i < |nodes| && nodes[i].content > 0 ==> nodes[i] in r
  {
    if nodes == [] then []
    else
      var last := nodes[|nodes| - 1];
      Surviving(nodes[..|nodes| - 1]) + (if last.content > 0 then [last] else [])
  }

  /** Filtering distributes over concatenation, so the survivors keep the
      order they had. */
  lemma {:induction false} SurvivingConcat(a: seq<ResourceNode>, b: seq<ResourceNode>)
    ensures Surviving(a + b) == Surviving(a) + Surviving(b)
    decreases |b|
  {
    if b == [] {
      assert a + b == a;
    } else {
      assert (a + b)[..|a + b| - 1] == a + b[..|b| - 1];
      SurvivingConcat(a, b[..|b| - 1]);
    }
  }

  /** `after` is `before` followed by new nodes of kind `k`, each placed in
      the spawn box with its kind's initial content. */
  ghost predicate Extends(before: seq<ResourceNode>, after: seq<ResourceNode>, k: NodeKind)
    reads after
  {
    && |before| <= |after| && after[..|before|] == before
    && forall i :: |before| <= i < |after| ==>
         after[i].kind == k && InSpawnBox(after[i].position) && after[i].content == InitialContent(k)
  }

  /** A snapshot of an ant's mutable state: position, heading, speed,
      perception, web timer, target, behaviour and load. */
  datatype AntView = AntView(position: Point, direction: Point, speed: real, radius: real,
                             webTimer: int, target: ResourceNode?, state: AntState,
                             minerals: int, plants: int)

  function View(a: Ant): AntView
    reads a
  {
    AntView(a.position, a.direction, a.speed, a.perceptionRadius, a.webSlowTimer, a.target,
            a.state, a.minerals, a.plants)
  }

  function Views(ants: seq<Ant>): (vs: seq<AntView>)
    reads ants
    ensures |vs| == |ants| && forall i :: 0 <= i < |ants| ==> vs[i] == View(ants[i])
  {
    seq(|ants|, i reads ants requires 0 <= i < |ants| => View(ants[i]))
  }

  /** Plant `p`, which was growing or not at scale `scale`, took its growth
      step at time `now`: finished at full scale once its duration has
      passed, otherwise at the elastic scale of its progress (`wave` stands
      for the sine term of the easing); a plant that was not growing is
      unchanged. */
  ghost predicate Grew(p: ResourceNode, growing: bool, scale: real, now: int, wave: real -> real)
    reads p
  {
    if !growing then !p.isGrowing && p.growthScale == scale
    else if now - p.growthStart >= p.growthDuration then !p.isGrowing && p.growthScale == 1.0
    else
      var progress := (now - p.growthStart) as real / p.growthDuration as real;
      p.isGrowing && p.growthScale == EaseOutElastic(progress, wave(progress))
  }

  /** Whether an ant at view `v` perceives the cursor or the snake. */
  predicate Threatened(v: AntView, cursor: Point, snakeHead: Point)
  {
    Within(v.position, cursor, v.radius) || Within(v.position, snakeHead, v.radius)
  }

  /** The pose an ant at view `v` takes its state-machine step from: its
      heading after the threat checks and the edge turn. */
  function Fled(v: AntView, cursor: Point, snakeHead: Point, flee: (Point, Point)): AntPose
  {
    AntPose(EdgeTurn(v.position, FleeHeading(v.position, v.radius, cursor, snakeHead, flee.0, flee.1, v.direction)),
            v.state, v.target, v.minerals, v.plants)
  }

  /** Ant `a` took its update from the view `v`: any perceived threat
      turned it to its flee heading, the edges turned it back, and it moved
      at its speed, halved while a web holds it, clamped into the field;
      speed and perception are as they were. A threatened ant keeps the
      flee heading the edges left it, and its behaviour, target and load;
      any other took the step of its state machine. */
  ghost predicate Stepped(a: Ant, v: AntView, cursor: Point, snakeHead: Point, flee: (Point, Point),
                          resources: seq<ResourceNode>, colonies: seq<Colony>)
    reads a
  {
    && InWorld(a.position) && a.speed == v.speed && a.perceptionRadius == v.radius
    && a.position == Advance(v.position, Fled(v, cursor, snakeHead, flee).direction,
                             if v.webTimer > 0 then v.speed * 0.5 else v.speed)
    && (Threatened(v, cursor, snakeHead) ==>
          && a.direction == Fled(v, cursor, snakeHead, flee).direction
          && a.state == v.state && a.target == v.target && a.minerals == v.minerals && a.plants == v.plants)
    && (!Threatened(v, cursor, snakeHead) ==> Behaved(a, Fled(v, cursor, snakeHead, flee), resources, colonies))
  }

  /** Ant `a` took the day/night adjustment from the view `v`: night speed
      and perception at night, day ones by day, and at night an ant farther
      than the night visibility from its home now heads home (`norm` is that
      distance); nothing else changed. */
  ghost predicate Adapted(a: Ant, v: AntView, isNight: bool, norm: real)
    reads a
  {
    && a.speed == (if isNight then AntNightSpeed else AntDaySpeed)
    && a.perceptionRadius == (if isNight then AntNightPerception else AntDayPerception)
    && a.direction ==
         (if isNight && a.home != null && Dist2(v.position, a.home.position) > NightVisibility * NightVisibility
             && norm > 0.0
          then Toward(v.position, a.home.position, norm)
          else v.direction)
    && a.position == v.position && a.state == v.state && a.target == v.target
    && a.webSlowTimer == v.webTimer && a.minerals == v.minerals && a.plants == v.plants
  }

  /** Every node of the list still holds something. */
  ghost predicate Stocked(nodes: seq<ResourceNode>)
    reads nodes
  {
    forall i :: 0 <= i < |nodes| ==> nodes[i].content > 0
  }

  /** The nodes' targets of the ants, the resources an ant update may drain. */
  function AntTargets(ants: seq<Ant>): set<ResourceNode?>
    reads ants
  {
    set i | 0 <= i < |ants| :: ants[i].target
  }

  /** With no ant at home in `c`, its count is zero. */
  lemma {:induction false} HomeCountAbsent(ants: seq<Ant>, c: Colony)
    requires forall i :: 0 <= i < |ants| ==> ants[i].home != c
    ensures HomeCount(ants, c) == 0
  {
    if ants != [] {
      HomeCountAbsent(ants[..|ants| - 1], c);
    }
  }

  /** When try `k` is clear and none before it is, it is the one FirstClear
      picks. */
  lemma FirstClearAt(tries: seq<Point>, ps: seq<Point>, k: nat)
    requires k < |tries| && Clear(tries[k], ps)
    requires forall j :: 0 <= j < k ==> !Clear(tries[j], ps)
    ensures FirstClear(tries, ps) == Some(k)
  {
  }

  /** Whether the snake's head is strictly within 200 of one of `cs`. */
  function SnakeNearAny(head: Point, cs: seq<Point>): (b: bool)
    ensures b <==> exists j :: 0 <= j < |cs| && Dist2(head, cs[j]) < 200.0 * 200.0
  {
    if cs == [] then false
    else Dist2(head, cs[0]) < 200.0 * 200.0 || SnakeNearAny(head, cs[1..])
  }

  /** The heading `d / |d|` from `p` to `c`, with `norm` the distance. */
  function Toward(p: Point, c: Point, norm: real): (d: Point)
    requires norm > 0.0
    ensures d == AwayFrom(c, p, norm)
  {
    Point((c.x - p.x) / norm, (c.y - p.y) / norm)
  }

  /** A distance whose square exceeds NightVisibility squared is positive. */
  lemma NormPositive(norm: real, d2: real)
    requires 0.0 <= norm && norm * norm == d2 && d2 > NightVisibility * NightVisibility
    ensures norm > 0.0
  {
    assert norm * norm > 0.0;
    assert norm != 0.0 by {
      assert 0.0 * 0.0 == 0.0;
    }
  }

  /** What a click on a colony's indicators asks for (Colony.handle_click,
      whose hit test against drawn rectangles is not part of this model). */
  datatype ClickAction = NoAction | SpawnAntClick | NewColonyClick

  /** The first colony whose indicator was hit. */
  function FirstAction(actions: seq<ClickAction>): (k: Option<nat>)
    ensures k.Some? ==> k.value < |actions| && actions[k.value] != NoAction
    ensures k.Some? ==> forall j :: 0 <= j < k.value ==> actions[j] == NoAction
    ensures k.None? <==> forall j :: 0 <= j < |actions| ==> actions[j] == NoAction
  {
    if actions == [] then None
    else if actions[0] != NoAction then Some(0)
    else
      match FirstAction(actions[1..])
      case None => None
      case Some(k) => Some(k + 1)
  }

  // ---------------------------------------------------------------------
  // The game
  // ---------------------------------------------------------------------

  /** Every ant left after a removal was in the list before. */
  lemma RemovedFrom(ants: seq<Ant>, k: nat)
    requires k < |ants|
    ensures forall a :: a in ants[..k] + ants[k + 1..] ==> a in ants
  {
    forall a | a in ants[..k] + ants[k + 1..]
      ensures a in ants
    {
      if a in ants[..k] {
        assert ants[..k] <= ants;
      } else {
        assert a in ants[k + 1..];
      }
    }
  }

  /** The census of ants and colonies, each listed once, every ant's load
      and every colony's population within bounds. */
  ghost predicate Populated(ants: seq<Ant>, colonies: seq<Colony>)
    reads ants, colonies
  {
    && Census(ants, colonies) && Distinct(ants) && Distinct(colonies)
    && (forall i :: 0 <= i < |ants| ==> ants[i].Valid())
    && (forall j :: 0 <= j < |colonies| ==> colonies[j].Valid())
  }

  /** The snake's turn keeps the census sound: the list it leaves is the old
      one, or the old one less the eaten ant. */
  lemma CaptureKeepsPopulated(ants: seq<Ant>, ants': seq<Ant>, colonies: seq<Colony>, eaten: Option<nat>)
    requires Distinct(ants) && Distinct(colonies) && Census(ants', colonies)
    requires forall i :: 0 <= i < |ants| ==> ants[i].Valid()
    requires forall j :: 0 <= j < |colonies| ==> colonies[j].Valid()
    requires eaten.None? ==> ants' == ants
    requires eaten.Some? ==> eaten.value < |ants| && ants' == ants[..eaten.value] + ants[eaten.value + 1..]
    ensures Populated(ants', colonies)
    ensures forall a :: a in ants' ==> a in ants
  {
    if eaten.Some? {
      DistinctRemove(ants, eaten.value);
      RemovedFrom(ants, eaten.value);
    }
    assert forall i :: 0 <= i < |ants'| ==> ants'[i] in ants;
  }

  /** What Colony.update did to `c`, given the snapshot `v` of its timer,
      count and stock before: nothing before the spawn interval is up; after it, the
      timer reset and one ant paid for exactly when it could be afforded and
      the roll fell under the spawn priority. */
  ghost predicate ColonyTicked(c: Colony, v: ColonyView, now: int, roll: real)
    reads c
  {
    if now - v.spawnTimer < c.spawnInterval then
      CView(c) == v
    else
      && c.spawnTimer == now
      && if v.antCount < c.maxAnts && v.minerals >= AntMineralCost && v.plants >= AntPlantCost
            && roll < SpawnPriority(v.antCount, c.maxAnts) then
           c.antCount == v.antCount + 1 && c.minerals == v.minerals - AntMineralCost && c.plants == v.plants - AntPlantCost
         else
           c.antCount == v.antCount && c.minerals == v.minerals && c.plants == v.plants
  }

  /** A snapshot of a colony's mutable state. */
  datatype ColonyView = ColonyView(spawnTimer: int, antCount: int, minerals: int, plants: int)

  function CView(c: Colony): ColonyView
    reads c
  {
    ColonyView(c.spawnTimer, c.antCount, c.minerals, c.plants)
  }

  function CViews(cs: seq<Colony>): (vs: seq<ColonyView>)
    reads cs
    ensures |vs| == |cs| && forall j :: 0 <= j < |cs| ==> vs[j] == CView(cs[j])
  {
    seq(|cs|, j reads cs requires 0 <= j < |cs| => CView(cs[j]))
  }

  /** What one frame of update reads from outside the model: the clock
      (`now`, and `dt` the frame time), the cursor, and every random draw
      and square root it takes (see Game.Fits). */
  datatype Tick = Tick(
    now: int, dt: int, cursor: Point,
    coil: seq<Point>, homeNorms: seq<real>, snakeNorms: seq<real>,
    rockDraws: seq<SpawnDraw>, plantDraws: seq<SpawnDraw>, bushDraws: seq<SpawnDraw>,
    wave: real -> real,
    snakeTurn: bool, snakeRightward: bool, snakeDownward: bool,
    flees: seq<(Point, Point)>, rolls: seq<real>, antDraws: seq<AntDraw>)

  class Game {
    var placingColony: bool
    var colonies: seq<Colony>
    var ants: seq<Ant>
    var rocks: seq<ResourceNode>
    var plants: seq<ResourceNode>
    var bushes: seq<ResourceNode>
    const snake: Snake
    var resourceSpawnTimer: int
    const cycleStart: int
    var currentTimeOfDay: Phase
    const gameState: GameState

    /** The world the update keeps consistent: the census of ants and
        colonies, one list entry per ant and per colony, every ant's load and
        every colony's population within bounds, the snake's body within its
        length and the music levels in range. */
    ghost predicate Valid()
      reads this`colonies, this`ants, snake, gameState, colonies, ants
    {
      snake.Valid() && gameState.Valid() && Populated(ants, colonies)
    }

    /** Game() at time `now`: no colony and no ant yet, the snake at its
        random spot, and the starting nodes initialize_resources placed. */
    constructor (now: int, snakeAt: Point, rightward: bool, downward: bool,
                 rocks0: seq<ResourceNode>, plants0: seq<ResourceNode>, bushes0: seq<ResourceNode>)
      ensures Valid() && fresh(snake) && fresh(gameState)
      ensures !placingColony && colonies == [] && ants == []
      ensures rocks == rocks0 && plants == plants0 && bushes == bushes0
      ensures snake.position == snakeAt && !snake.isSleeping
      ensures resourceSpawnTimer == now && cycleStart == now && currentTimeOfDay == Day
    {
      placingColony := false;
      colonies, ants := [], [];
      rocks, plants, bushes := rocks0, plants0, bushes0;
      snake := new Snake(snakeAt, rightward, downward);
      resourceSpawnTimer := now;
      cycleStart := now;
      currentTimeOfDay := Day;
      gameState := new GameState(now);
    }

    /** Every resource node, in the order the ants and the placement see them. */
    function Resources(): seq<ResourceNode>
      reads this
    {
      rocks + plants + bushes
    }

    /** The list of a kind. */
    function Stock(kind: NodeKind): seq<ResourceNode>
      reads this
    {
      match kind
      case Rock => rocks
      case Plant => plants
      case Bush => bushes
    }

    // -------------------------------------------------------------------
    // Small queries
    // -------------------------------------------------------------------

    /** is_snake_nearby: the snake is within 200 of some colony. */
    function IsSnakeNearby(): (b: bool)
      reads this, snake
      ensures b <==> exists j :: 0 <= j < |colonies| && Dist2(snake.position, colonies[j].position) < 200.0 * 200.0
      ensures |colonies| == 0 ==> !b
    {
      SnakeNearAny(snake.position, ColonyPositions(colonies))
    }

    /** are_resources_low: never without a colony; else the main colony's
        minerals or plants are under 50. */
    function AreResourcesLow(): (b: bool)
      reads this, colonies
      ensures |colonies| == 0 ==> !b
      ensures |colonies| > 0 ==> (b <==> colonies[0].minerals < 50 || colonies[0].plants < 50)
    {
      |colonies| > 0 && (colonies[0].minerals < 50 || colonies[0].plants < 50)
    }

    // -------------------------------------------------------------------
    // Resources
    // -------------------------------------------------------------------

    /** The distance check of find_valid_resource_position: is some node
        closer than MinResourceSpacing to `p`? */
    static method TooClose(p: Point, nodes: seq<ResourceNode>) returns (close: bool)
      ensures close <==> !Clear(p, NodePositions(nodes))
    {
      var i := 0;
      while i < |nodes|
        invariant 0 <= i <= |nodes|
        invariant forall j :: 0 <= j < i ==> Dist2(p, nodes[j].position) >= MinResourceSpacing * MinResourceSpacing
      {
        if Dist2(p, nodes[i].position) < MinResourceSpacing * MinResourceSpacing {
          return true;
        }
        i := i + 1;
      }
      return false;
    }

    /** find_valid_resource_position: up to PlacementAttempts tries, the first
        one clear of every resource wins; after that the extra draw. */
    method FindValidResourcePosition(tries: seq<Point>, fallback: Point) returns (p: Point)
      requires |tries| == PlacementAttempts
      ensures p == Placement(tries, fallback, NodePositions(Resources()))
    {
      var nodes := rocks + plants + bushes;
      var attempts := 0;
      while attempts < PlacementAttempts
        invariant 0 <= attempts <= PlacementAttempts
        invariant forall j :: 0 <= j < attempts ==> !Clear(tries[j], NodePositions(nodes))
      {
        var position := tries[attempts];
        var tooClose := TooClose(position, nodes);
        if !tooClose {
          FirstClearAt(tries, NodePositions(nodes), attempts);
          return position;
        }
        attempts := attempts + 1;
      }
      return fallback;
    }

    /** One spawn of update_resources: a node of `kind` at the position the
        placement search finds, appended to its list. */
    method SpawnNode(kind: NodeKind, d: SpawnDraw, now: int) returns (node: ResourceNode)
      requires ValidSpawnDraw(d)
      modifies this`rocks, this`plants, this`bushes
      ensures fresh(node) && node.Fresh(kind, Placement(d.tries, d.fallback, old(NodePositions(Resources()))))
      ensures InSpawnBox(node.position)
      ensures Stock(kind) == old(Stock(kind)) + [node]
      ensures (kind != Rock ==> rocks == old(rocks)) && (kind != Plant ==> plants == old(plants)) && (kind != Bush ==> bushes == old(bushes))
    {
      var position := FindValidResourcePosition(d.tries, d.fallback);
      node := AddNode(kind, position, d, now);
    }

    /** The node of `kind` the draw `d` describes, created at `position` and
        appended to its list. */
    method AddNode(kind: NodeKind, position: Point, d: SpawnDraw, now: int) returns (node: ResourceNode)
      requires ValidSpawnDraw(d)
      modifies this`rocks, this`plants, this`bushes
      ensures fresh(node) && node.Fresh(kind, position)
      ensures Stock(kind) == old(Stock(kind)) + [node]
      ensures (kind != Rock ==> rocks == old(rocks)) && (kind != Plant ==> plants == old(plants)) && (kind != Bush ==> bushes == old(bushes))
    {
      if kind == Rock {
        node := new ResourceNode.NewRock(position, d.shape);
        rocks := rocks + [node];
      } else if kind == Plant {
        node := new ResourceNode.NewPlant(position, now);
        plants := plants + [node];
      } else {
        node := new ResourceNode.NewBush(position, d.berries);
        bushes := bushes + [node];
      }
    }

    /** One counted loop of update_resources: `n` draws, each spawning a node
        of `kind` when its roll is below `chance`. */
    method SpawnBatch(kind: NodeKind, draws: seq<SpawnDraw>, n: nat, chance: real, now: int)
      requires n <= |draws| && forall i :: 0 <= i < |draws| ==> ValidSpawnDraw(draws[i])
      modifies this`rocks, this`plants, this`bushes
      ensures |Stock(kind)| == |old(Stock(kind))| + SpawnCount(draws, n, chance)
      ensures Stock(kind)[..|old(Stock(kind))|] == old(Stock(kind))
      ensures forall i :: |old(Stock(kind))| <= i < |Stock(kind)| ==>
        fresh(Stock(kind)[i]) && Stock(kind)[i].kind == kind && InSpawnBox(Stock(kind)[i].position)
        && Stock(kind)[i].content == InitialContent(kind)
      ensures (kind != Rock ==> rocks == old(rocks)) && (kind != Plant ==> plants == old(plants)) && (kind != Bush ==> bushes == old(bushes))
    {
      var i := 0;
      while i < n
        invariant 0 <= i <= n
        invariant |Stock(kind)| == |old(Stock(kind))| + SpawnCount(draws, i, chance)
        invariant Stock(kind)[..|old(Stock(kind))|] == old(Stock(kind))
        invariant forall j :: |old(Stock(kind))| <= j < |Stock(kind)| ==>
          fresh(Stock(kind)[j]) && Stock(kind)[j].kind == kind && InSpawnBox(Stock(kind)[j].position)
          && Stock(kind)[j].content == InitialContent(kind)
        invariant (kind != Rock ==> rocks == old(rocks)) && (kind != Plant ==> plants == old(plants)) && (kind != Bush ==> bushes == old(bushes))
      {
        if draws[i].roll < chance {
          var node := SpawnNode(kind, draws[i], now);
        }
        i := i + 1;
      }
    }

    /** update_resources: once ResourceSpawnInterval has passed, reset the
        timer and run the three counted loops: up to two rocks, three plants
        and two bushes, never more than a kind lacks of its maximum, each
        spawn decided by its roll against the kind's chance (higher when the
        kind is under 30%, or 40% for plants, of its maximum). */
    method UpdateResources(now: int, rockDraws: seq<SpawnDraw>, plantDraws: seq<SpawnDraw>, bushDraws: seq<SpawnDraw>)
      requires |rockDraws| == 2 && |plantDraws| == 3 && |bushDraws| == 2
      requires forall i :: 0 <= i < 2 ==> ValidSpawnDraw(rockDraws[i]) && ValidSpawnDraw(bushDraws[i])
      requires forall i :: 0 <= i < 3 ==> ValidSpawnDraw(plantDraws[i])
      modifies this`rocks, this`plants, this`bushes, this`resourceSpawnTimer
      ensures now - old(resourceSpawnTimer) < ResourceSpawnInterval ==>
        rocks == old(rocks) && plants == old(plants) && bushes == old(bushes) && resourceSpawnTimer == old(resourceSpawnTimer)
      ensures now - old(resourceSpawnTimer) >= ResourceSpawnInterval ==>
        && resourceSpawnTimer == now
        && |rocks| == |old(rocks)| + SpawnCount(rockDraws, BatchSize(2, MaxRocks - |old(rocks)|),
                                                 SpawnChance(|old(rocks)|, MaxRocks, 0.3, 0.8, 0.4))
        && |plants| == |old(plants)| + SpawnCount(plantDraws, BatchSize(3, MaxPlants - |old(plants)|),
                                                   SpawnChance(|old(plants)|, MaxPlants, 0.4, 0.9, 0.5))
        && |bushes| == |old(bushes)| + SpawnCount(bushDraws, BatchSize(2, MaxBushes - |old(bushes)|),
                                                   SpawnChance(|old(bushes)|, MaxBushes, 0.3, 0.7, 0.3))
      ensures Extends(old(rocks), rocks, Rock) && Extends(old(plants), plants, Plant) && Extends(old(bushes), bushes, Bush)
      ensures forall i :: |old(rocks)| <= i < |rocks| ==> fresh(rocks[i])
      ensures forall i :: |old(plants)| <= i < |plants| ==> fresh(plants[i])
      ensures forall i :: |old(bushes)| <= i < |bushes| ==> fresh(bushes[i])
    {
      if now - resourceSpawnTimer < ResourceSpawnInterval {
        return;
      }
      resourceSpawnTimer := now;
      var rockChance := SpawnChance(|rocks|, MaxRocks, 0.3, 0.8, 0.4);
      var plantChance := SpawnChance(|plants|, MaxPlants, 0.4, 0.9, 0.5);
      var bushChance := SpawnChance(|bushes|, MaxBushes, 0.3, 0.7, 0.3);
      var rocksNeeded := MaxRocks - |rocks|;
      var plantsNeeded := MaxPlants - |plants|;
      var bushesNeeded := MaxBushes - |bushes|;
      SpawnBatch(Rock, rockDraws, BatchSize(2, rocksNeeded), rockChance, now);
      assert Stock(Rock) == rocks && Stock(Plant) == plants && Stock(Bush) == bushes;
      assert Extends(old(rocks), rocks, Rock);
      SpawnBatch(Plant, plantDraws, BatchSize(3, plantsNeeded), plantChance, now);
      assert Stock(Rock) == rocks && Stock(Plant) == plants && Stock(Bush) == bushes;
      assert Extends(old(plants), plants, Plant);
      SpawnBatch(Bush, bushDraws, BatchSize(2, bushesNeeded), bushChance, now);
      assert Stock(Rock) == rocks && Stock(Plant) == plants && Stock(Bush) == bushes;
    }

    /** The pruning of update: each list keeps exactly its nodes that still
        hold something, in their order. */
    method PruneDepleted()
      modifies this`rocks, this`plants, this`bushes
      ensures rocks == old(Surviving(rocks)) && plants == old(Surviving(plants)) && bushes == old(Surviving(bushes))
      ensures forall n :: n in rocks <==> n in old(rocks) && n.content > 0
      ensures forall n :: n in plants <==> n in old(plants) && n.content > 0
      ensures forall n :: n in bushes <==> n in old(bushes) && n.content > 0
      ensures Stocked(rocks) && Stocked(plants) && Stocked(bushes)
    {
      var r, p, b := Surviving(rocks), Surviving(plants), Surviving(bushes);
      assert Stocked(r) && Stocked(p) && Stocked(b);
      rocks, plants, bushes := r, p, b;
    }

    /** The growth animations of update, one plant after the other: a plant
        that was growing has finished at full scale once its growth duration
        has passed, and otherwise stands at the elastic scale of its
        progress; every other plant is as it was. */
    method GrowPlants(now: int, wave: real -> real)
      modifies set i | 0 <= i < |plants| :: plants[i]
      ensures forall i :: 0 <= i < |plants| ==> plants[i].content == old(plants[i].content)
      ensures forall i :: 0 <= i < |plants| ==>
        Grew(plants[i], old(plants[i].isGrowing), old(plants[i].growthScale), now, wave)
    {
      var i := 0;
      while i < |plants|
        invariant 0 <= i <= |plants|
        invariant forall j :: 0 <= j < |plants| ==> plants[j].content == old(plants[j].content)
        invariant forall j :: 0 <= j < i ==> Grew(plants[j], old(plants[j].isGrowing), old(plants[j].growthScale), now, wave)
        invariant forall j :: i <= j < |plants| ==>
          || (plants[j].isGrowing == old(plants[j].isGrowing) && plants[j].growthScale == old(plants[j].growthScale))
          || Grew(plants[j], old(plants[j].isGrowing), old(plants[j].growthScale), now, wave)
      {
        var p := plants[i];
        p.UpdateGrowth(now, wave((now - p.growthStart) as real / p.growthDuration as real));
        i := i + 1;
      }
    }

    // -------------------------------------------------------------------
    // Day and night
    // -------------------------------------------------------------------

    /** handle_time_change: at nightfall the snake coils up to sleep (`coil`
        is the trigonometric coil of its body) and every ant's perception
        shrinks; at daybreak the snake wakes and perception is restored.
        Nothing else about the ants changes. */
    method HandleTimeChange(newTime: Phase, coil: seq<Point>)
      requires snake.Valid() && |coil| == |snake.body|
      modifies snake`isSleeping, snake`body, ants
      ensures snake.Valid()
      ensures newTime == Night ==> snake.isSleeping && snake.body == coil
      ensures newTime == Day ==>
        && !snake.isSleeping && |snake.body| == snake.length
        && forall i :: 0 <= i < |snake.body| ==> snake.body[i] == snake.position
      ensures forall i :: 0 <= i < |ants| ==>
        && ants[i].perceptionRadius == (if newTime == Night then AntNightPerception else AntDayPerception)
        && ants[i].position == old(ants[i].position) && ants[i].direction == old(ants[i].direction)
        && ants[i].speed == old(ants[i].speed) && ants[i].state == old(ants[i].state)
        && ants[i].target == old(ants[i].target) && ants[i].webSlowTimer == old(ants[i].webSlowTimer)
        && ants[i].minerals == old(ants[i].minerals) && ants[i].plants == old(ants[i].plants)
    {
      var radius: real;
      if newTime == Night {
        snake.StartSleeping(coil);
        radius := AntNightPerception;
      } else {
        snake.WakeUp();
        radius := AntDayPerception;
      }
      SetPerception(radius);
    }

    /** The loop of handle_time_change: every ant gets perception `radius`. */
    method SetPerception(radius: real)
      modifies ants
      ensures forall i :: 0 <= i < |ants| ==>
        && ants[i].perceptionRadius == radius
        && ants[i].position == old(ants[i].position) && ants[i].direction == old(ants[i].direction)
        && ants[i].speed == old(ants[i].speed) && ants[i].state == old(ants[i].state)
        && ants[i].target == old(ants[i].target) && ants[i].webSlowTimer == old(ants[i].webSlowTimer)
        && ants[i].minerals == old(ants[i].minerals) && ants[i].plants == old(ants[i].plants)
    {
      var i := 0;
      while i < |ants|
        invariant 0 <= i <= |ants|
        invariant forall j :: 0 <= j < i ==> ants[j].perceptionRadius == radius
        invariant forall j :: 0 <= j < |ants| ==>
          && ants[j].position == old(ants[j].position) && ants[j].direction == old(ants[j].direction)
          && ants[j].speed == old(ants[j].speed) && ants[j].state == old(ants[j].state)
          && ants[j].target == old(ants[j].target) && ants[j].webSlowTimer == old(ants[j].webSlowTimer)
          && ants[j].minerals == old(ants[j].minerals) && ants[j].plants == old(ants[j].plants)
      {
        ants[i].perceptionRadius := radius;
        i := i + 1;
      }
    }

    /** update_day_night_behaviors: by night every ant slows down and sees
        less, and an ant farther than NightVisibility from its home turns
        straight towards it; by day speed and perception are restored.  The
        snake always gets its day speed: the night branch needs a sleep
        position the game never sets.  `norms[i]` is ant `i`'s Euclidean
        distance from its home. */
    method UpdateDayNightBehaviors(isNight: bool, norms: seq<real>)
      requires Distinct(ants) && |norms| == |ants|
      requires forall i :: 0 <= i < |ants| && ants[i].home != null ==>
        0.0 <= norms[i] && norms[i] * norms[i] == Dist2(ants[i].position, ants[i].home.position)
      modifies snake`speed, ants
      ensures snake.speed == SnakeDaySpeed
      ensures forall i :: 0 <= i < |ants| ==> Adapted(ants[i], old(View(ants[i])), isNight, norms[i])
    {
      ghost var was := Views(ants);
      var i := 0;
      while i < |ants|
        invariant AntsAdapted(i, was, isNight, norms)
      {
        AdaptAnt(i, isNight, norms, was);
        i := i + 1;
      }
      snake.speed := SnakeDaySpeed;
    }

    /** The behaviour loop after `i` ants: those are adapted from their views
        in `was`, the rest still hold them. */
    ghost predicate AntsAdapted(i: nat, was: seq<AntView>, isNight: bool, norms: seq<real>)
      reads this, ants
    {
      && i <= |ants| == |was| == |norms| && Distinct(ants)
      && (forall j :: 0 <= j < |ants| && ants[j].home != null ==>
            0.0 <= norms[j] && norms[j] * norms[j] == Dist2(was[j].position, ants[j].home.position))
      && (forall j :: i <= j < |ants| ==> View(ants[j]) == was[j])
      && (forall j :: 0 <= j < i ==> Adapted(ants[j], was[j], isNight, norms[j]))
    }

    /** Ant `i`'s turn in the behaviour loop. */
    method AdaptAnt(i: nat, isNight: bool, norms: seq<real>, ghost was: seq<AntView>)
      requires i < |ants| && AntsAdapted(i, was, isNight, norms)
      modifies ants[i]
      ensures AntsAdapted(i + 1, was, isNight, norms)
    {
      var ant := ants[i];
      if isNight {
        ant.speed := AntNightSpeed;
        ant.perceptionRadius := AntNightPerception;
        if ant.home != null && Dist2(ant.position, ant.home.position) > NightVisibility * NightVisibility {
          NormPositive(norms[i], Dist2(ant.position, ant.home.position));
          ant.direction := Toward(ant.position, ant.home.position, norms[i]);
        }
      } else {
        ant.speed := AntDaySpeed;
        ant.perceptionRadius := AntDayPerception;
      }
      assert Adapted(ant, was[i], isNight, norms[i]);
    }

    // -------------------------------------------------------------------
    // Clicks
    // -------------------------------------------------------------------

    /** The colony part of handle_events for a click at `click`.  With no
        colony yet, the click founds the main colony, which spawns its two
        initial ants (`initialDraws`).  While a new colony is being placed,
        the click founds an empty non-main colony there and debits the main
        colony the founding cost, without checking its stock.  Otherwise the
        first colony whose indicator was hit (`actions[j]` is what colony
        `j`'s hit test answers) decides: a spawn click spawns one of its ants,
        a colony click starts placing a new colony. */
    method HandleClick(click: Point, actions: seq<ClickAction>, initialDraws: seq<AntDraw>, draw: AntDraw)
      requires Valid() && |actions| == |colonies|
      requires |initialDraws| == 2 && (forall i :: 0 <= i < 2 ==> ValidDraw(initialDraws[i])) && ValidDraw(draw)
      modifies this`colonies, this`ants, this`placingColony, colonies
      ensures Valid()
      ensures old(colonies) == [] ==>
        && |colonies| == 1 && fresh(colonies[0]) && colonies[0].isMain && colonies[0].position == click
        && colonies[0].minerals == ColonyInitialMinerals && colonies[0].plants == ColonyInitialPlants
        && colonies[0].antCount == 2 && |ants| == |old(ants)| + 2 && ants[..|old(ants)|] == old(ants)
        && placingColony == old(placingColony)
      ensures old(colonies) != [] && old(placingColony) ==>
        && |colonies| == |old(colonies)| + 1 && colonies[..|old(colonies)|] == old(colonies)
        && fresh(colonies[|old(colonies)|]) && !colonies[|old(colonies)|].isMain
        && colonies[|old(colonies)|].position == click && colonies[|old(colonies)|].antCount == 0
        && colonies[|old(colonies)|].minerals == 0 && colonies[|old(colonies)|].plants == 0
        && colonies[|old(colonies)|].spawnTimer == 0
        && colonies[0].minerals == old(colonies[0].minerals) - NewColonyMineralCost
        && colonies[0].plants == old(colonies[0].plants) - NewColonyPlantCost
        && colonies[0].spawnTimer == old(colonies[0].spawnTimer) && colonies[0].antCount == old(colonies[0].antCount)
        && (forall j :: 0 <= j < |old(colonies)| && colonies[j] != colonies[0] ==> CView(colonies[j]) == old(CView(colonies[j])))
        && ants == old(ants) && !placingColony
      ensures old(colonies) != [] && !old(placingColony) ==>
        && colonies == old(colonies)
        && (FirstAction(actions).None? ==>
              ants == old(ants) && !placingColony && forall j :: 0 <= j < |colonies| ==> CView(colonies[j]) == old(CView(colonies[j])))
        && (FirstAction(actions).Some? && actions[FirstAction(actions).value] == NewColonyClick ==>
              ants == old(ants) && placingColony && forall j :: 0 <= j < |colonies| ==> CView(colonies[j]) == old(CView(colonies[j])))
        && (FirstAction(actions).Some? && actions[FirstAction(actions).value] == SpawnAntClick ==>
              var k := FirstAction(actions).value;
              && !placingColony
              && SpawnedBy(colonies[k], old(ants), ants, old(colonies[k].CanSpawnAnt()),
                           old(colonies[k].antCount), old(colonies[k].minerals), old(colonies[k].plants))
              && colonies[k].spawnTimer == old(colonies[k].spawnTimer)
              && forall j :: 0 <= j < |colonies| && colonies[j] != colonies[k] ==> CView(colonies[j]) == old(CView(colonies[j])))
    {
      if colonies == [] {
        FoundMainColony(click, initialDraws);
      } else if placingColony {
        FoundColony(click);
      } else {
        var k := FirstAction(actions);
        if k.Some? {
          if actions[k.value] == SpawnAntClick {
            SpawnAntAt(k.value, draw);
          } else {
            placingColony := true;
          }
        }
      }
    }

    /** What a spawn click on colony `c` did, given its stock before: with
        room and stock, one ant homed at `c` appended and its cost paid;
        otherwise nothing. */
    ghost predicate SpawnedBy(c: Colony, before: seq<Ant>, after: seq<Ant>, could: bool,
                              count: int, minerals: int, plants: int)
      reads c, after
    {
      && (could ==>
            && |after| == |before| + 1 && after[..|before|] == before && after[|before|].home == c
            && c.antCount == count + 1 && c.minerals == minerals - AntMineralCost && c.plants == plants - AntPlantCost)
      && (!could ==> after == before && c.antCount == count && c.minerals == minerals && c.plants == plants)
    }

    /** The first click: the main colony and its two initial ants. */
    method FoundMainColony(click: Point, initialDraws: seq<AntDraw>)
      requires Valid() && colonies == []
      requires |initialDraws| == 2 && forall i :: 0 <= i < 2 ==> ValidDraw(initialDraws[i])
      modifies this`colonies, this`ants
      ensures Valid()
      ensures |colonies| == 1 && fresh(colonies[0]) && colonies[0].isMain && colonies[0].position == click
      ensures colonies[0].minerals == ColonyInitialMinerals && colonies[0].plants == ColonyInitialPlants
      ensures colonies[0].antCount == 2 && |ants| == |old(ants)| + 2 && ants[..|old(ants)|] == old(ants)
    {
      var first := new Colony(click, true);
      HomeCountAbsent(ants, first);
      ants := first.SpawnInitialAnts(ants, initialDraws);
      colonies := colonies + [first];
    }

    /** A click while placing: an empty colony at `click`, paid for by the
        main colony whatever its stock. */
    method FoundColony(click: Point)
      requires Valid() && colonies != []
      modifies this`colonies, this`placingColony, colonies[0]
      ensures Valid()
      ensures |colonies| == |old(colonies)| + 1 && colonies[..|old(colonies)|] == old(colonies)
      ensures fresh(colonies[|old(colonies)|]) && !colonies[|old(colonies)|].isMain
      ensures colonies[|old(colonies)|].position == click && colonies[|old(colonies)|].antCount == 0
      ensures colonies[|old(colonies)|].minerals == 0 && colonies[|old(colonies)|].plants == 0
      ensures colonies[|old(colonies)|].spawnTimer == 0
      ensures colonies[0].minerals == old(colonies[0].minerals) - NewColonyMineralCost
      ensures colonies[0].plants == old(colonies[0].plants) - NewColonyPlantCost
      ensures colonies[0].spawnTimer == old(colonies[0].spawnTimer) && colonies[0].antCount == old(colonies[0].antCount)
      ensures !placingColony
    {
      var founded := new Colony(click, false);
      HomeCountAbsent(ants, founded);
      var main := colonies[0];
      colonies := colonies + [founded];
      main.minerals := main.minerals - NewColonyMineralCost;
      main.plants := main.plants - NewColonyPlantCost;
      placingColony := false;
    }

    /** A spawn click on colony `k`. */
    method SpawnAntAt(k: nat, draw: AntDraw)
      requires Valid() && k < |colonies| && ValidDraw(draw)
      modifies this`ants, colonies[k]
      ensures Valid()
      ensures SpawnedBy(colonies[k], old(ants), ants, old(colonies[k].CanSpawnAnt()),
                        old(colonies[k].antCount), old(colonies[k].minerals), old(colonies[k].plants))
      ensures colonies[k].spawnTimer == old(colonies[k].spawnTimer)
    {
      var c := colonies[k];
      ants := c.SpawnAnt(ants, draw);
    }

    // -------------------------------------------------------------------
    // The frame
    // -------------------------------------------------------------------

    /** The draws and measurements one frame is given fit the world it
        starts from: the coil has one point per body segment, `homeNorms[i]`
        is ant `i`'s distance from its home, `snakeNorms[j]` the snake's from
        colony `j`, and there are enough random draws for every loop. */
    ghost predicate Fits(t: Tick)
      reads this, snake, ants, colonies
    {
      && |t.coil| == |snake.body|
      && |t.homeNorms| == |ants|
      && (forall i :: 0 <= i < |ants| && ants[i].home != null ==>
            0.0 <= t.homeNorms[i] && t.homeNorms[i] * t.homeNorms[i] == Dist2(ants[i].position, ants[i].home.position))
      && |t.snakeNorms| == |colonies|
      && (forall j :: 0 <= j < |colonies| ==>
            0.0 <= t.snakeNorms[j] && t.snakeNorms[j] * t.snakeNorms[j] == Dist2(snake.position, colonies[j].position))
      && |t.rockDraws| == 2 && |t.plantDraws| == 3 && |t.bushDraws| == 2
      && (forall i :: 0 <= i < 2 ==> ValidSpawnDraw(t.rockDraws[i]) && ValidSpawnDraw(t.bushDraws[i]))
      && (forall i :: 0 <= i < 3 ==> ValidSpawnDraw(t.plantDraws[i]))
      && |t.flees| >= |ants|
      && |t.rolls| == |colonies| && |t.antDraws| == |colonies|
      && (forall j :: 0 <= j < |t.antDraws| ==> ValidDraw(t.antDraws[j]))
    }

    /** The start of update: the phase of the cycle, HandleTimeChange when it
        differs from the last one, and the day/night behaviours. */
    method AdvanceClock(phase: Phase, coil: seq<Point>, norms: seq<real>)
      requires Valid() && |coil| == |snake.body| && |norms| == |ants|
      requires forall i :: 0 <= i < |ants| && ants[i].home != null ==>
        0.0 <= norms[i] && norms[i] * norms[i] == Dist2(ants[i].position, ants[i].home.position)
      modifies this`currentTimeOfDay, snake`isSleeping, snake`body, snake`speed, ants
      ensures Valid()
      ensures currentTimeOfDay == phase
      ensures old(currentTimeOfDay) != phase ==> snake.isSleeping == (phase == Night)
      ensures old(currentTimeOfDay) == phase ==> snake.isSleeping == old(snake.isSleeping) && snake.body == old(snake.body)
      ensures old(currentTimeOfDay) != phase && phase == Night ==> snake.body == coil
      ensures old(currentTimeOfDay) != phase && phase == Day ==>
        |snake.body| == snake.length && forall i :: 0 <= i < |snake.body| ==> snake.body[i] == snake.position
      ensures snake.speed == SnakeDaySpeed
      ensures forall i :: 0 <= i < |ants| ==> Adapted(ants[i], old(View(ants[i])), phase == Night, norms[i])
    {
      if phase != currentTimeOfDay {
        HandleTimeChange(phase, coil);
      }
      currentTimeOfDay := phase;
      UpdateDayNightBehaviors(phase == Night, norms);
    }

    /** The snake's turn of update: a capture removes the eaten ant from the
        game's list (the snake works on the list itself).  Returns whether an
        ant was eaten. */
    method SnakeTurn(turn: bool, rightward: bool, downward: bool) returns (killed: bool)
      requires Valid()
      modifies snake, colonies, this`ants
      ensures Valid()
      ensures forall i :: 0 <= i < |ants| ==> ants[i] in old(ants)
      ensures |ants| == |old(ants)| - (if killed then 1 else 0)
      ensures old(snake.isSleeping) ==> !killed && ants == old(ants) && snake.position == old(snake.position)
      ensures !old(snake.isSleeping) ==>
        var prey := old(PreyIndex(snake.position, AntPositions(ants), ColonyPositions(colonies), snake.perceptionRadius));
        && (killed <==> prey.Some? && Within(old(snake.position), old(ants[prey.value].position), snake.size))
        && (prey.Some? ==> snake.direction == HeadingToward(old(snake.position), old(ants[prey.value].position), old(snake.direction)))
        && (prey.None? ==> snake.direction == if turn then Point(Sign(rightward), Sign(downward)) else old(snake.direction))
        && (killed ==> ants == old(ants[..prey.value] + ants[prey.value + 1..]) && snake.position == old(snake.position))
        && (!killed ==> ants == old(ants) && snake.position == Advance(old(snake.position), snake.direction, snake.speed))
      ensures snake.isSleeping == old(snake.isSleeping) && snake.speed == old(snake.speed)
      ensures forall j :: 0 <= j < |colonies| ==>
        colonies[j].minerals == old(colonies[j].minerals) && colonies[j].plants == old(colonies[j].plants)
        && colonies[j].spawnTimer == old(colonies[j].spawnTimer)
    {
      var ants';
      ghost var prey;
      killed, ants', prey := snake.Update(ants, colonies, turn, rightward, downward);
      CaptureKeepsPopulated(ants, ants', colonies, if killed then prey else None);
      ants := ants';
    }

    /** The ant loop of update: each ant in list order updates against every
        resource and colony, with its own pair of flee headings (`flees[i]`,
        the random flee angles for the cursor and the snake).  Each ant moves
        exactly as its own update says, from where it stood. */
    method UpdateAnts(cursor: Point, dt: int, flees: seq<(Point, Point)>)
      requires Valid() && |flees| >= |ants|
      modifies ants, AntTargets(ants), colonies
      ensures Valid()
      ensures forall j :: 0 <= j < |colonies| ==> colonies[j].antCount == old(colonies[j].antCount)
      ensures forall i :: 0 <= i < |ants| ==>
        Stepped(ants[i], old(View(ants[i])), cursor, snake.position, flees[i], Resources(), colonies)
    {
      ghost var was := Views(ants);
      ghost var counts := AntCounts(colonies);
      var resources := Resources();
      var i := 0;
      while i < |ants|
        invariant AntsStepped(i, was, counts, cursor, flees)
      {
        StepAnt(i, resources, cursor, dt, flees, was, counts);
        i := i + 1;
      }
    }

    function AntCounts(cs: seq<Colony>): (counts: seq<int>)
      reads cs
      ensures |counts| == |cs| && forall j :: 0 <= j < |cs| ==> counts[j] == cs[j].antCount
    {
      seq(|cs|, j reads cs requires 0 <= j < |cs| => cs[j].antCount)
    }

    /** The ant loop after `i` ants: those have stepped from their views in
        `was`, the rest still hold them, and the census is untouched. */
    ghost predicate AntsStepped(i: nat, was: seq<AntView>, counts: seq<int>, cursor: Point, flees: seq<(Point, Point)>)
      reads this, snake, gameState, ants, colonies
    {
      && i <= |ants| == |was| <= |flees| && |counts| == |colonies|
      && snake.Valid() && gameState.Valid() && Populated(ants, colonies)
      && (forall j :: 0 <= j < |colonies| ==> colonies[j].antCount == counts[j])
      && (forall j :: i <= j < |ants| ==> View(ants[j]) == was[j])
      && (forall j :: 0 <= j < i ==> Stepped(ants[j], was[j], cursor, snake.position, flees[j], Resources(), colonies))
    }

    /** Ant `i`'s update in the ant loop: it alone moves, and unless
        threatened takes its state-machine step against what its target and
        the colonies held when its turn came. */
    method StepAnt(i: nat, resources: seq<ResourceNode>, cursor: Point, dt: int, flees: seq<(Point, Point)>,
                   ghost was: seq<AntView>, ghost counts: seq<int>)
      requires i < |ants| && AntsStepped(i, was, counts, cursor, flees) && resources == Resources()
      modifies ants[i], ants[i].target, colonies
      ensures AntsStepped(i + 1, was, counts, cursor, flees)
      ensures !Threatened(was[i], cursor, snake.position) ==>
        StepTaken(ants[i], Fled(was[i], cursor, snake.position, flees[i]), old(ants[i].TargetContent()), old(Stocks(colonies)),
                  resources, colonies)
    {
      var ant := ants[i];
      var threatened := ant.Update(cursor, snake.position, resources, colonies, dt, flees[i].0, flees[i].1);
      assert threatened == Threatened(was[i], cursor, snake.position);
      if !threatened {
        StepBehaves(ant, Fled(was[i], cursor, snake.position, flees[i]), old(ant.TargetContent()), old(Stocks(colonies)),
                    resources, colonies);
      }
      assert Stepped(ant, was[i], cursor, snake.position, flees[i], resources, colonies);
    }

    /** The colony loop of update: each colony in turn may spawn an ant
        (`rolls[j]` and `draws[j]` are colony `j`'s random draws); spawned
        ants are appended to the game's list. */
    method UpdateColonies(now: int, rolls: seq<real>, draws: seq<AntDraw>)
      requires Valid() && |rolls| == |colonies| && |draws| == |colonies|
      requires forall j :: 0 <= j < |draws| ==> ValidDraw(draws[j])
      modifies this`ants, colonies
      ensures Valid()
      ensures |old(ants)| <= |ants| && ants[..|old(ants)|] == old(ants)
      ensures forall i :: |old(ants)| <= i < |ants| ==> ants[i].Newborn() && ants[i].home in colonies
      ensures forall j :: 0 <= j < |colonies| ==> ColonyTicked(colonies[j], old(CView(colonies[j])), now, rolls[j])
    {
      ghost var was := CViews(colonies);
      ghost var ants0 := ants;
      var j := 0;
      while j < |colonies|
        invariant ColoniesTicked(j, was, ants0, now, rolls)
      {
        TickColony(j, now, rolls, draws, was, ants0);
        j := j + 1;
      }
    }

    /** The colony loop after `j` colonies: those have ticked from their
        views in `was`, the rest still hold them, and the ants they spawned
        follow the ants `ants0` the loop started with. */
    ghost predicate ColoniesTicked(j: nat, was: seq<ColonyView>, ants0: seq<Ant>, now: int, rolls: seq<real>)
      reads this, snake, gameState, ants, colonies
    {
      && j <= |colonies| == |was| == |rolls|
      && snake.Valid() && gameState.Valid() && Populated(ants, colonies)
      && |ants0| <= |ants| && ants[..|ants0|] == ants0
      && (forall i :: |ants0| <= i < |ants| ==> ants[i].Newborn() && ants[i].home in colonies)
      && (forall m :: j <= m < |colonies| ==> CView(colonies[m]) == was[m])
      && (forall m :: 0 <= m < j ==> ColonyTicked(colonies[m], was[m], now, rolls[m]))
    }

    /** One colony of the colony loop. */
    method TickColony(j: nat, now: int, rolls: seq<real>, draws: seq<AntDraw>,
                      ghost was: seq<ColonyView>, ghost ants0: seq<Ant>)
      requires j < |colonies| && ColoniesTicked(j, was, ants0, now, rolls)
      requires |draws| == |colonies| && ValidDraw(draws[j])
      modifies this`ants, colonies[j]
      ensures ColoniesTicked(j + 1, was, ants0, now, rolls)
    {
      TickOne(j, now, rolls[j], draws[j]);
    }

    /** Colony `j`'s update, appending the ant it may spawn. */
    method TickOne(j: nat, now: int, roll: real, draw: AntDraw)
      requires Valid() && j < |colonies| && ValidDraw(draw)
      modifies this`ants, colonies[j]
      ensures Valid()
      ensures |old(ants)| <= |ants| <= |old(ants)| + 1 && ants[..|old(ants)|] == old(ants)
      ensures forall i :: |old(ants)| <= i < |ants| ==> fresh(ants[i]) && ants[i].Newborn() && ants[i].home == colonies[j]
      ensures ColonyTicked(colonies[j], old(CView(colonies[j])), now, roll)
    {
      var c := colonies[j];
      var before := ants;
      ants := c.Update(now, ants, roll, draw);
      if |ants| == |before| + 1 {
        DistinctAppend(before, ants[|before|]);
        assert ants == before + [ants[|before|]];
      }
      assert Census(ants, colonies);
    }

    /** update, without the spider and the webs: the phase of the cycle
        (a change of phase runs HandleTimeChange), the day/night behaviours,
        the game state, the resource spawns, the plant growth, the snake,
        the ants, the pruning of drained resources and the colonies, in this
        order.  Returns whether the snake ate an ant. */
    method Update(t: Tick) returns (killed: bool)
      requires Valid() && Fits(t)
      modifies this, snake, gameState, ants, colonies, AntTargets(ants), set i | 0 <= i < |plants| :: plants[i]
      ensures Valid()
      ensures currentTimeOfDay == PhaseAt(t.now, cycleStart)
      ensures old(currentTimeOfDay) != currentTimeOfDay ==> snake.isSleeping == (currentTimeOfDay == Night)
      ensures old(currentTimeOfDay) == currentTimeOfDay ==> snake.isSleeping == old(snake.isSleeping)
      ensures snake.speed == SnakeDaySpeed
      ensures colonies == old(colonies) && placingColony == old(placingColony)
      ensures Stocked(rocks) && Stocked(plants) && Stocked(bushes)
      ensures snake.isSleeping ==> !killed
    {
      ghost var targets := AntTargets(ants);
      Prelude(t);
      assert AntTargets(ants) == targets;
      killed := Creatures(t);
    }

    /** The first half of update: the clock, the game state, the resource
        spawns and the plant growth. */
    method Prelude(t: Tick)
      requires Valid() && Fits(t)
      modifies this`currentTimeOfDay, this`rocks, this`plants, this`bushes, this`resourceSpawnTimer
      modifies snake`isSleeping, snake`body, snake`speed, gameState, ants, set i | 0 <= i < |plants| :: plants[i]
      ensures Valid()
      ensures currentTimeOfDay == PhaseAt(t.now, cycleStart)
      ensures old(currentTimeOfDay) != currentTimeOfDay ==> snake.isSleeping == (currentTimeOfDay == Night)
      ensures old(currentTimeOfDay) == currentTimeOfDay ==> snake.isSleeping == old(snake.isSleeping)
      ensures snake.speed == SnakeDaySpeed
      ensures forall i :: 0 <= i < |ants| ==> ants[i].target == old(ants[i].target)
    {
      var phase := PhaseAt(t.now, cycleStart);
      AdvanceClock(phase, t.coil, t.homeNorms);
      RefreshMood(t.now, t.snakeNorms);
      Flora(t.now, t.rockDraws, t.plantDraws, t.bushDraws, t.wave);
    }

    /** The game state's update, fed from the game's lists. */
    method RefreshMood(now: int, norms: seq<real>)
      requires Valid() && |norms| == |colonies|
      requires forall j :: 0 <= j < |colonies| ==>
        0.0 <= norms[j] && norms[j] * norms[j] == Dist2(snake.position, colonies[j].position)
      modifies gameState
      ensures Valid()
    {
      gameState.Update(now, ants, colonies, snake.position, norms, rocks, plants, bushes);
    }

    /** The resource spawns of update and the growth of every plant, the
        new ones included. */
    method Flora(now: int, rockDraws: seq<SpawnDraw>, plantDraws: seq<SpawnDraw>, bushDraws: seq<SpawnDraw>,
                 wave: real -> real)
      requires |rockDraws| == 2 && |plantDraws| == 3 && |bushDraws| == 2
      requires forall i :: 0 <= i < 2 ==> ValidSpawnDraw(rockDraws[i]) && ValidSpawnDraw(bushDraws[i])
      requires forall i :: 0 <= i < 3 ==> ValidSpawnDraw(plantDraws[i])
      modifies this`rocks, this`plants, this`bushes, this`resourceSpawnTimer, set i | 0 <= i < |plants| :: plants[i]
      ensures ants == old(ants) && colonies == old(colonies)
      ensures old(Valid()) ==> Valid()
      ensures forall i :: 0 <= i < |ants| ==> ants[i].target == old(ants[i].target)
    {
      ghost var plants0 := plants;
      UpdateResources(now, rockDraws, plantDraws, bushDraws);
      assert forall i :: 0 <= i < |plants| ==> i < |plants0| || fresh(plants[i]);
      assert forall i :: 0 <= i < |plants0| ==> plants[i] == plants0[i];
      GrowPlants(now, wave);
    }

    /** The second half of update: the snake, the ants, the pruning and the
        colonies. */
    method Creatures(t: Tick) returns (killed: bool)
      requires Valid() && |t.flees| >= |ants| && |t.rolls| == |colonies| && |t.antDraws| == |colonies|
      requires forall j :: 0 <= j < |t.antDraws| ==> ValidDraw(t.antDraws[j])
      modifies this`ants, this`rocks, this`plants, this`bushes, snake, ants, colonies, AntTargets(ants)
      ensures Valid()
      ensures snake.isSleeping == old(snake.isSleeping) && snake.speed == old(snake.speed)
      ensures Stocked(rocks) && Stocked(plants) && Stocked(bushes)
      ensures snake.isSleeping ==> !killed
    {
      ghost var targets := AntTargets(ants);
      killed := SnakeTurn(t.snakeTurn, t.snakeRightward, t.snakeDownward);
      assert AntTargets(ants) <= targets;
      Swarm(t);
    }

    /** The ants' turn, the pruning and the colonies' turn of update. */
    method Swarm(t: Tick)
      requires Valid() && |t.flees| >= |ants| && |t.rolls| == |colonies| && |t.antDraws| == |colonies|
      requires forall j :: 0 <= j < |t.antDraws| ==> ValidDraw(t.antDraws[j])
      modifies this`ants, this`rocks, this`plants, this`bushes, ants, colonies, AntTargets(ants)
      ensures Valid()
      ensures Stocked(rocks) && Stocked(plants) && Stocked(bushes)
    {
      Forage(t.cursor, t.dt, t.flees);
      UpdateColonies(t.now, t.rolls, t.antDraws);
    }

    /** The ants' turn of update and the pruning after it. */
    method Forage(cursor: Point, dt: int, flees: seq<(Point, Point)>)
      requires Valid() && |flees| >= |ants|
      modifies this`rocks, this`plants, this`bushes, ants, AntTargets(ants), colonies
      ensures Valid()
      ensures forall i :: 0 <= i < |ants| ==>
        Stepped(ants[i], old(View(ants[i])), cursor, snake.position, flees[i], old(Resources()), colonies)
      ensures forall j :: 0 <= j < |colonies| ==> colonies[j].antCount == old(colonies[j].antCount)
      ensures forall n :: n in rocks <==> n in old(rocks) && n.content > 0
      ensures forall n :: n in plants <==> n in old(plants) && n.content > 0
      ensures forall n :: n in bushes <==> n in old(bushes) && n.content > 0
      ensures Stocked(rocks) && Stocked(plants) && Stocked(bushes)
    {
      UpdateAnts(cursor, dt, flees);
      PruneDepleted();
    }
  }
}
