# Ant colony simulation, modelled in Dafny

This project models the simulation core of a small pixel-art ant colony
game. The player places a main colony; ants spawn from it, explore the
map, collect minerals from rocks and resources from pine trees and bushes,
and bring them home. Colonies spend the stock on new ants and new colonies.
A snake hunts ants outside colonies and sleeps at night. A spider wanders
at night, flees from crowds of ants, spins webs that hold ants, and hides
in a plant by day. A music "game state" derives a mood from the ants'
activity, the snake's distance to the colonies and the resources left.

The repository also holds an older standalone variant, `MCgame.py`: a
main pixel node spawns pixel ants that forage rocks and grass, leave
breadcrumbs, heal, and receive upgrades paid from the collected stock.

Files and modules:

- `geometry.dfy`: `Wrappers` (an `Option`) and `Geometry`. Points,
  squared distances, the `distance < r` test, clamping, the heading
  `[dx/total, dy/total]`, and the first-nearest search that `min(...,
  key=distance)` performs.
- `resources.dfy` (`Resources`): `src/resources.py`. Rocks, pine trees
  and bushes, their pixel layouts, and the tree's elastic growth animation.
- `entities.dfy` (`Entities`): `src/entities.py`. `Colony`, `Ant`,
  `Snake`, `Spider` and `SpiderWeb` as classes whose methods update their
  fields in place.
- `game.dfy` (`GameLoop`): `src/game.py`. `GameState` (the music mood)
  and `Game` (the frame update, resource spawning, click handling and the
  day/night cycle).
- `mcgame.dfy` (`MCGame`): `MCgame.py`. Plants, rocks, breadcrumbs, the
  wrapping snake, the main pixel node, pixel ants, and the three per-frame
  passes `adapt_to_environment`, `handle_upgrades_and_exchanges` and
  `move_pixel_ants`.

Randomness, the clock, square roots and trigonometry are parameters. These
cover random rolls, spawn draws, the frame time, the Euclidean norms the
code divides by, the sleep-coil positions and the elastic wave term. Each
contract holds for every value of those parameters that the source could
produce.

Where the code does something odd, the model follows the code:

- `explore` picks the first node in range without checking its content.
- Founding a second colony debits the main colony without re-checking its
  stock.
- `snake_sleep_position` is never set, so the snake's speed is always
  reset to the day speed.
- A pine tree's contact size is 0.
- `handle_upgrades_and_exchanges` asks an ant for an upgrade it does not
  know (see Findings). The loop takes the upgrade it asks for as a
  parameter: `Durability` is the code as written, `HealthPoints` the
  corrected call.

## Model

| member | source | states |
|---|---|---|
| Resources.InitialContent | src/resources.py:56-63 | every fresh node holds a positive amount (rock 50, pine 30, bush 10) |
| Resources.EaseOutElastic | src/resources.py:198-207 | the animation curve starts at 0 and ends at 1; in between it is the wave term plus one |
| Resources.RowPixelsSpec | src/resources.py:65-81 | a pixel is produced for a row exactly when its cell is marked, at that cell's coordinates, in strictly left-to-right order |
| Resources.LayoutPixelsSpec | src/resources.py:65-81 | over a whole layout, pixels are exactly the marked cells, in strictly row-major order |
| Resources.ExpandSpec | src/resources.py:65-81 | the layout expansion used by all three generators yields exactly the marked cells, each once, in row-major order |
| Resources.RockPixelsSpec | src/resources.py:65-81 | a rock's pixels are exactly its shape's 'X' cells, as stone, and 'S' cells, as shine, in row-major order |
| Resources.PinePixelsSpec | src/resources.py:152-183 | a pine tree's pixels are exactly the pattern's 'X' cells, as leaves, and '\|' cells, as trunk, in row-major order |
| Resources.BushPixelsSpec | src/resources.py:269-301 | the pixels are exactly these: each 'X' of the bush pattern, as a berry when the bush has berries and the cell is a berry cell and as a leaf otherwise, and each slash, backslash and vertical bar as a stem; pixels are in row-major order |
| Resources.BushCellFacts | src/resources.py:269-301 | one bush cell is a berry exactly when it is an 'X' on a berry cell of a berried bush, a leaf exactly when it is any other 'X', a stem exactly when it is a slash, a backslash or a vertical bar, and no pixel otherwise |
| Resources.ResourceNode.NewRock | src/resources.py:56-81 | a new rock is fresh at its position with 50 minerals, size 40, no spider, and the pixels of its shape |
| Resources.ResourceNode.NewPlant | src/resources.py:138-183 | a new pine tree is fresh with 30 resources, contact size 0, growing from scale 0 since `now` |
| Resources.ResourceNode.NewBush | src/resources.py:260-301 | a new bush is fresh with 10 resources, size 40, and the pixels of its pattern |
| Resources.ResourceNode.UpdateGrowth | src/resources.py:185-196 | a tree that is not growing is unchanged; growth ends at scale 1 once the duration has passed; otherwise the scale follows the elastic curve of the elapsed fraction |
| Entities.HomeCountConcat | src/entities.py:78-91 | the number of ants belonging to a colony adds up over concatenated ant lists |
| Entities.HomeCountRemove | src/entities.py:659-667 | removing one ant lowers its own colony's count by one and no other colony's count |
| Entities.Colony.constructor | src/entities.py:22-51 | a main colony starts with the initial stock, any other colony with none; no ants and a zero spawn timer |
| Entities.Colony.SpawnInitialAnts | src/entities.py:53-64 | adds two newborn ants of this colony, capped at the colony's maximum; the ant count and census grow by the number added and the stock is untouched |
| Entities.Colony.SpawnAnt | src/entities.py:66-91 | with enough stock and room, appends one newborn ant at the drawn offset and debits its cost; otherwise nothing changes; the census follows |
| Entities.Colony.Update | src/entities.py:93-104 | before the interval nothing changes; after it the timer resets, and an ant is added exactly when there is room and stock and the roll beats the spawn priority |
| Entities.SpawnPriority | src/entities.py:99-103 | the priority lies in (0, 1] while there is room, is 1 with no ants, and is at most 0 when full |
| Entities.EdgeTurn | src/entities.py:460-481 | the heading keeps its magnitude per axis; it points inward near an edge and is untouched away from the edges |
| Entities.Advance | src/entities.py:483-500 | the new position is always on the map, and is the plain step whenever that step stays on the map |
| Entities.FirstInRange | src/entities.py:502-523 | the chosen node is the first one in perception range; none is chosen exactly when none is in range |
| Entities.FirstInRangeAt | src/entities.py:502-523 | the first in-range index is unique: a node in range with none in range before it is the one chosen |
| Entities.CollectAmount | src/entities.py:525-574 | an ant takes between 0 and the node's content without exceeding its capacity, and takes either everything or fills up |
| Entities.Ant.constructor | src/entities.py:303-378 | a newborn ant at its position, with its home colony and a diagonal heading of the drawn signs |
| Entities.Ant.CheckBoundaries | src/entities.py:460-481 | the heading becomes the edge-corrected heading |
| Entities.Ant.Move | src/entities.py:483-500 | the heading is edge-corrected, then the ant advances at the given speed and stays on the map |
| Entities.Ant.Explore | src/entities.py:502-523 | a full ant turns to returning; otherwise it targets the first node in range and heads for it, or carries on unchanged if there is none |
| Entities.Ant.CollectResources | src/entities.py:525-574 | no target or an empty one sends the ant exploring; out of reach nothing changes; in reach the ant takes the collect amount of the right kind, the node loses exactly that much, and the ant returns |
| Entities.Ant.ReturnToColony | src/entities.py:576-602 | the ant heads for the nearest colony; within reach it unloads its whole load into that colony only and explores again |
| Entities.Ant.FaceThreats | src/entities.py:391-443 | the ant is threatened exactly when the cursor or the snake is within its perception, and then takes the flee heading |
| Entities.Ant.Step | src/entities.py:410-418 | the phase the ant's state names runs with exactly its effect (`StepTaken`): exploring targets the first node in range or turns home when full; collecting takes CollectAmount from a reachable node, which loses exactly that, or drops an empty target; returning heads for the nearest colony and hands it the whole load. The ant stays valid and never moves, and no colony's ant count changes |
| Entities.Ant.Update | src/entities.py:380-418 | the web timer runs down, the ant moves at half speed while held, flees threats and stays on the map. A threatened ant heads along its flee heading as the edges turned it (`EdgeTurn` of the old position and the flee heading) and neither collects nor unloads. Any other ant takes its state-machine step (`StepTaken`) from its turned heading and its new position |
| Entities.Ant.Maneuver | src/entities.py:381-408 | the web timer runs down, a perceived threat sets the flee heading, the edges turn it, and the ant moves at full or half speed into the field |
| Entities.StepBehaves | src/entities.py:410-418 | a step's effect on the ant itself is one of the three phase outcomes, whatever its target and the colonies held |
| Entities.PreyIndex | src/entities.py:628-648 | the prey is the nearest ant within perception that is outside every colony, the first among equals; none is found exactly when no ant qualifies |
| Entities.InColony | src/entities.py:637-644 | an ant counts as inside exactly when it is within the minimum colony size of some colony |
| Entities.Snake.constructor | src/entities.py:606-621 | the snake starts awake with length 15, speed 1 and a one-segment body at its position |
| Entities.Snake.Update | src/entities.py:623-686 | a sleeping snake does nothing; an awake one turns toward its prey, eats it when within reach (removing it, growing, and lowering its colony's count), or else crawls on; the census holds throughout |
| Entities.Snake.Pursue | src/entities.py:650-686 | catches the given prey exactly when it is within reach; otherwise crawls with the body shifted by one |
| Entities.Snake.ScanForPrey | src/entities.py:628-648 | returns the prey index the specification function selects |
| Entities.Snake.Eat | src/entities.py:659-667 | removes exactly that ant, grows by one, and lowers only its home colony's count |
| Entities.Snake.Crawl | src/entities.py:673-686 | the head advances and stays on the map; the body gains the new head and is trimmed to the snake's length |
| Entities.Snake.StartSleeping | src/entities.py:757-775 | the snake sleeps and its body is the coil |
| Entities.Snake.WakeUp | src/entities.py:777-785 | the snake is awake with a full-length body gathered at its position |
| Entities.CountWithin | src/entities.py:869-873 | the count is at most the number of ants, and zero exactly when no ant is near |
| Entities.Bounce | src/entities.py:896-908 | the coordinate ends within the edge buffer and the heading flips exactly when the step crossed an edge |
| Entities.GlideAxis | src/entities.py:892-908 | a spider step along one axis always ends inside the buffered window |
| Entities.GlideStep | src/entities.py:891-910 | a spider step keeps the spider inside the buffered window on both axes |
| Entities.AwayFrom | src/entities.py:877-878 | the flee heading points away from the colony on each axis, and is zero only where the spider is level with it |
| Entities.AwayFromUnit | src/entities.py:877-878 | divided by the true distance, the flee heading is a unit vector |
| Entities.Spider.constructor | src/entities.py:788-821 | a spider starts wandering with its speed, web chance and cooldown, and no home plant |
| Entities.Spider.Glide | src/entities.py:925-944 | the spider moves one bounded glide step along its flee heading |
| Entities.Spider.UpdateWandering | src/entities.py:860-910 | with at least 3 ants near a colony in alert range, the spider flees away from that colony (70%) or starts dying; otherwise it roams and stays in the window |
| Entities.Spider.Roam | src/entities.py:886-910 | the spider possibly takes a new heading and then glides |
| Entities.Spider.AlarmingColony | src/entities.py:862-873 | a colony raises the alarm only when enough ants are near; it is then the first colony in alert range |
| Entities.Spider.UpdateFleeing | src/entities.py:912-944 | the flee timer runs down; at zero the spider wanders again; otherwise it may lay a fresh web at its old position and glides on |
| Entities.Spider.FindShelter | src/entities.py:962-981 | a shelter is found exactly when there is a plant or bush; the spider then sleeps in the nearest one and frees its previous one. No other node's spider flag and no node's content changes; without a shelter nothing changes |
| Entities.SpiderWeb.constructor | src/entities.py:1017-1027 | a new web is pristine: intact, holding no ant |
| Entities.SpiderWeb.AffectsAnt | src/entities.py:1046-1070 | a held ant's timer advances and frees it, destroying the web, after 5 seconds; a new ant is caught exactly when within half the web's size and is slowed for 5 seconds |
| GameLoop.PhaseInFirstCycle | src/game.py:262-265 | within one cycle it is night exactly in the second half |
| GameLoop.PhasePeriodic | src/game.py:262-265 | the phase repeats every cycle |
| GameLoop.SelectMood | src/game.py:78-91 | the four moods partition the inputs, in the order ambient, floating, dreamy, peaceful |
| GameLoop.ActiveCount | src/game.py:43-44 | active ants are at most all ants, and none exactly when no ant carries anything |
| GameLoop.Intensity | src/game.py:45 | intensity lies in [0, 0.5], is 0 exactly without active ants, and is 0.5 when all are active |
| GameLoop.Danger | src/game.py:56 | danger lies in [0, 1], is 0 beyond 300 pixels, and falls linearly with distance inside it |
| GameLoop.Least | src/game.py:55 | the closest distance is one of the distances and no larger than any |
| GameLoop.TotalContent | src/game.py:59-63 | the total is non-negative when every node's content is |
| GameLoop.Capacity | src/game.py:64-68 | the capacity is zero exactly when there are no nodes at all |
| GameLoop.Abundance | src/game.py:70 | abundance is 1 without nodes and lies in [0, 1] when the total is within capacity |
| GameLoop.FloatingUnreachable | src/game.py:42-91 | since intensity never exceeds 0.5, the floating mood is never selected |
| GameLoop.GameState.constructor | src/game.py:21-31 | the state starts calm: zero intensity and danger, full abundance, day, peaceful, no transition |
| GameLoop.GameState.Update | src/game.py:33-76 | within a second nothing changes; after it every level is recomputed from the ants, colonies and resources, and a mood change requests a transition |
| GameLoop.GameState.UpdateMood | src/game.py:78-91 | the mood is the selected one, and a transition is requested exactly when it changed or one was pending |
| GameLoop.FirstClear | src/game.py:425-443 | the chosen try is the first one at least 30 pixels from every node; none exactly when no try is clear |
| GameLoop.FirstClearAt | src/game.py:425-443 | a clear try with no clear try before it is the one chosen |
| GameLoop.Placement | src/game.py:420-449 | the position is the first clear try, or the fallback when none is clear, and stays in the spawn box |
| GameLoop.BatchSize | src/game.py:405-415 | a batch never exceeds its cap or the number still needed, and is empty when none are needed |
| GameLoop.SpawnCount | src/game.py:405-418 | no more nodes spawn than the batch allows |
| GameLoop.BatchCapped | src/game.py:393-418 | spawning never takes a resource kind past its maximum, and spawns none once it is full |
| GameLoop.Surviving | src/game.py:361-364 | pruning keeps exactly the nodes with content left |
| GameLoop.SurvivingConcat | src/game.py:361-364 | pruning a concatenation prunes each part |
| GameLoop.SnakeNearAny | src/game.py:775-784 | the snake is near exactly when some colony lies within 200 pixels |
| GameLoop.Toward | src/game.py:833-839 | the homeward heading at night points from the ant toward its colony |
| GameLoop.FirstAction | src/game.py:240-248 | the click goes to the first colony whose indicator reports an action |
| GameLoop.CaptureKeepsPopulated | src/game.py:348-351 | after the snake's turn the ant list is the old one or the old one minus the eaten ant, and the census still holds |
| GameLoop.Game.constructor | src/game.py:104-185 | a new game has no colony and no ant, the initial nodes, an awake snake, and both timers at `now` in daytime |
| GameLoop.Game.IsSnakeNearby | src/game.py:775-784 | true exactly when the snake is within 200 pixels of some colony, never without colonies |
| GameLoop.Game.AreResourcesLow | src/game.py:786-792 | false without colonies; otherwise true exactly when the main colony has under 50 minerals or under 50 plants |
| GameLoop.Game.FindValidResourcePosition | src/game.py:420-449 | returns the placement among the ten tries, or the fallback |
| GameLoop.Game.SpawnNode | src/game.py:406-418 | appends one fresh node of the kind at a valid placement to its own list only |
| GameLoop.Game.AddNode | src/game.py:408-418 | appends one fresh node of the kind at the position to its own list only |
| GameLoop.Game.SpawnBatch | src/game.py:405-418 | appends exactly as many fresh full nodes as the rolls allow, in the spawn box, to that kind's list only |
| GameLoop.Game.UpdateResources | src/game.py:382-418 | before the interval nothing changes; after it each list grows by its batch of spawns at the chance set by how full it is, and old nodes are kept |
| GameLoop.Game.PruneDepleted | src/game.py:361-364 | each list keeps exactly its nodes with content left, in order; a node is in the new list exactly when it was in the old one and holds something |
| GameLoop.Game.GrowPlants | src/game.py:341-343 | each growing tree is finished at full scale once its growth duration has passed, and otherwise stands at the elastic scale of its progress; a tree that is not growing stays as it is, and no content changes |
| GameLoop.Game.HandleTimeChange | src/game.py:794-816 | at night the snake sleeps and ants see less; by day the snake wakes and ants see further; nothing else about an ant changes |
| GameLoop.Game.SetPerception | src/game.py:803-812 | every ant gets the radius and keeps everything else |
| GameLoop.Game.UpdateDayNightBehaviors | src/game.py:818-869 | every ant gets the phase's speed and perception, and at night a distant ant heads home; the snake takes the day speed |
| GameLoop.Game.AdaptAnt | src/game.py:822-842 | one more ant has been adapted and the earlier ones are kept |
| GameLoop.Game.HandleClick | src/game.py:230-248 | the first click founds the main colony with two ants; a placing click founds a new empty colony paid by the main one; otherwise the first indicator hit spawns an ant or starts placing. Colonies the click does not found, pay from or spawn from keep their whole state |
| GameLoop.Game.FoundMainColony | src/game.py:230-232 | one main colony at the click, with its initial stock and two ants |
| GameLoop.Game.FoundColony | src/game.py:233-239 | a new empty colony at the click with a fresh spawn timer; the main colony pays 200 minerals and 400 plants and keeps its timer and count; placing ends |
| GameLoop.Game.SpawnAntAt | src/game.py:243-245 | the clicked colony spawns an ant as the spawn rule says; its spawn timer is untouched |
| GameLoop.Game.AdvanceClock | src/game.py:316-323 | on a phase change the snake sleeps on the coil at nightfall and wakes straightened into its head's point by day; without one it keeps its body; every ant is `Adapted`: the phase's speed and perception, and at night an ant beyond the night visibility heads home |
| GameLoop.Game.SnakeTurn | src/game.py:348-351 | a sleeping snake does nothing; an awake one heads for the prey `PreyIndex` picks (or turns at random without one), eats it exactly when within reach, which removes exactly that ant from the list and keeps the snake in place, and otherwise advances along its heading; colony stocks are untouched |
| GameLoop.Game.UpdateAnts | src/game.py:353-359 | every ant has moved from its own state before the loop. A threatened ant kept its behaviour, target and load; any other took its state-machine step (exploring and returning exactly, collecting for whatever content it met). No colony's count changed |
| GameLoop.Game.StepAnt | src/game.py:354-359 | one more ant has moved and, unless threatened, taken its full state-machine step (`StepTaken`) against what its target and the colonies held at its turn; the earlier ants are kept |
| GameLoop.Game.UpdateColonies | src/game.py:366-368 | every colony has ticked from its state before the loop; new ants are newborn, appended and belong to a colony |
| GameLoop.Game.TickColony | src/game.py:367-368 | one more colony has ticked and the earlier ones are kept |
| GameLoop.Game.TickOne | src/game.py:367-368 | the colony ticks and appends at most one fresh newborn ant of its own |
| GameLoop.Game.Update | src/game.py:260-380 | a frame keeps the world valid, sets the time of day from the cycle, sleeps or wakes the snake on a change, prunes drained nodes, and reports no kill while the snake sleeps |
| GameLoop.Game.Prelude | src/game.py:316-343 | the clock and snake follow the phase and no ant changes target |
| GameLoop.Game.RefreshMood | src/game.py:325-336 | the game state updates and the world stays valid |
| GameLoop.Game.Flora | src/game.py:338-343 | spawning and growth leave ants and colonies alone |
| GameLoop.Game.Creatures | src/game.py:348-368 | the snake, ants and colonies take their turns; the world stays valid and drained nodes are gone |
| GameLoop.Game.Swarm | src/game.py:353-368 | the ants and the colonies take their turns; the world stays valid and drained nodes are gone |
| GameLoop.Game.Forage | src/game.py:353-364 | every ant took its turn (`Stepped`) from where it stood, against the resources at the start; colony populations are unchanged; each list then holds exactly its nodes that still hold something |
| MCGame.GrowthRate | MCgame.py:121-122 | plants grow at a positive rate, 0.2 exactly by the lake |
| MCGame.Refill | MCgame.py:121-126 | a full store is unchanged; otherwise it grows by the rate and never beyond the cap |
| MCGame.RefillBounded | MCgame.py:121-126 | repeated refilling never overshoots the cap or loses content |
| MCGame.Plant.constructor | MCgame.py:116-119 | a plant starts full with 15 resources |
| MCGame.Plant.Grow | MCgame.py:121-126 | the plant refills at its biome's rate up to 15 |
| MCGame.Rock.constructor | MCgame.py:111-114 | a rock starts full with 10 minerals |
| MCGame.Rock.Regenerate | MCgame.py:398-402 | the rock refills by 0.01 up to 10 |
| MCGame.UpdateBreadcrumbs | MCgame.py:93-96 | kept breadcrumbs are exactly the young ones |
| MCGame.UpdateBreadcrumbsAppend | MCgame.py:93-96 | filtering distributes over concatenation |
| MCGame.UpdateBreadcrumbsIdempotent | MCgame.py:93-96 | filtering twice at the same time is filtering once |
| MCGame.UpdateBreadcrumbsKeepsYoung | MCgame.py:93-96 | a list of young breadcrumbs is kept whole |
| MCGame.Wrap | MCgame.py:228-231 | wrapped coordinates lie on the map, are unchanged when already on it, and the far edge wraps to 0 |
| MCGame.WrapShift | MCgame.py:228-231 | wrapping before or after a shift gives the same coordinate |
| MCGame.Snake.constructor | MCgame.py:222-224 | the snake starts at its position heading right |
| MCGame.Snake.Move | MCgame.py:226-232 | the snake steps by its heading, wrapping around the map |
| MCGame.Drift | MCgame.py:226-231 | repeated moves keep the snake on the map |
| MCGame.DriftIsShift | MCgame.py:226-231 | n moves equal one wrapped shift by n headings |
| MCGame.SnakeLap | MCgame.py:226-231 | a snake heading right returns to its column after a full map width |
| MCGame.NodeUpgraded | MCgame.py:174-180 | only storage, efficiency and battery upgrades change a node; none lowers stock or capacity or raises energy beyond the battery |
| MCGame.AntUpgraded | MCgame.py:213-219 | only carry, health and speed upgrades change an ant; none lowers a stat; health grows by 1.5 |
| MCGame.SpawnQuota | MCgame.py:155-157 | a node spawns at most the requested ants and never beyond 10 in total, and reaches one or the other |
| MCGame.MainPixelNode.constructor | MCgame.py:135-141 | a node starts with energy and battery 50, empty stock and no ants spawned |
| MCGame.MainPixelNode.SpawnAnts | MCgame.py:155-165 | appends the quota of fresh newborn ants at the drawn offsets and counts them |
| MCGame.MainPixelNode.UpdateEnergy | MCgame.py:167-172 | energy gains 10 by day or loses the consumption rate at night, capped by the battery |
| MCGame.MainPixelNode.Upgrade | MCgame.py:174-180 | the node's stats become the upgraded stats |
| MCGame.HealSteps | MCgame.py:206-211 | healing spends 2 plants per point, never below zero, stops at full health or when plants run short |
| MCGame.Ant.constructor | MCgame.py:183-189 | an ant starts empty with capacity 10, speed 2, health 10 and the drawn diagonal heading |
| MCGame.Ant.Perceive | MCgame.py:196-199 | the heading reverses exactly when the cursor or the snake is within awareness |
| MCGame.Ant.Heal | MCgame.py:206-211 | health gains the heal steps and plants lose 2 per step |
| MCGame.Ant.Advance | MCgame.py:431-443 | the ant moves to its clamped step |
| MCGame.Ant.Mine | MCgame.py:446-451 | the ant gathers from the rocks in order; minerals are conserved between ant and rocks, the load never drops, and no rock gains or goes negative |
| MCGame.Ant.MineAll | MCgame.py:446-451 | the load and the rocks are what gathering over the rocks gives |
| MCGame.Ant.MineOne | MCgame.py:447-450 | one more rock has been gathered from and later rocks are untouched |
| MCGame.Ant.Graze | MCgame.py:453-458 | the ant gathers from the grass in order; resources are conserved between ant and plants, the load never drops, and no plant gains or goes negative |
| MCGame.Ant.GrazeAll | MCgame.py:453-458 | the load and the plants are what gathering over the grass gives |
| MCGame.Ant.GrazeOne | MCgame.py:454-457 | one more plant has been gathered from and later plants are untouched |
| MCGame.Ant.Deliver | MCgame.py:461-467 | a loaded ant within awareness of home unloads all into the collected stock, which is conserved; otherwise nothing changes |
| MCGame.Ant.Upgrade | MCgame.py:213-219 | the ant's stats become the upgraded stats |
| MCGame.AdaptToEnvironment | MCgame.py:392-402 | every plant refills at the biome's rate and every rock regenerates, each by its own rule |
| MCGame.GrowAll | MCgame.py:394-395 | every plant refills at the biome's rate |
| MCGame.RegenerateAll | MCgame.py:398-402 | every rock regenerates by 0.01 up to 10 |
| MCGame.NodeAutoUpgraded | MCgame.py:407-416 | with 100 minerals the stock grows; with enough plants too, efficiency and battery upgrades apply; below the thresholds nothing changes |
| MCGame.AntExchanged | MCgame.py:417-424 | 50 collected minerals buy 5 carry capacity; 50 plants buy 1.5 health only through the health upgrade |
| MCGame.Debit | MCgame.py:419-424 | 50 is debited exactly when the stock holds at least 50 |
| MCGame.Drain | MCgame.py:404-424 | after n ants the stock is debited 50 per ant or has dropped below 50, and never goes negative |
| MCGame.Collected.constructor | MCgame.py:297 | the collected stock starts empty |
| MCGame.Exchange | MCgame.py:417-424 | an ant is upgraded from the collected stock, which is debited per kind |
| MCGame.ExchangeAsWritten | MCgame.py:417-424 | the exchange as written: the plant debit buys no upgrade |
| MCGame.DurabilityBuysNothing | MCgame.py:422-424 | as written, 50 plants are spent and the ant is unchanged |
| MCGame.DurabilityBuysHealth | MCgame.py:213-217 | with the health upgrade, 50 plants add 1.5 health and change nothing else |
| MCGame.UpgradeNode | MCgame.py:407-416 | the node's stats become the auto-upgraded stats |
| MCGame.Pots | MCgame.py:417-424 | the stock before each pixel is the previous stock less what the previous ant paid |
| MCGame.PotsDrain | MCgame.py:404-424 | the stock before pixel j equals the start drained by the ants before j |
| MCGame.HandleUpgradesAndExchanges | MCgame.py:404-424 | every node is auto-upgraded and every ant exchanged, with the plant upgrade the call names, against the stock left by the ants before it; the final stock is drained by all ants. As written (`Durability`) no ant's health changes |
| MCGame.ExchangeTurn | MCgame.py:406-424 | one more pixel has been handled and the earlier ones are kept |
| MCGame.NodeTurn | MCgame.py:407-416 | the node pixel is upgraded and the stock unchanged |
| MCGame.AntTurn | MCgame.py:417-424 | the ant pixel is exchanged with the named plant upgrade (as written or corrected) and the stock paid |
| MCGame.Moved | MCgame.py:431-443 | the new position is on the map, is the plain step when that is on the map, and moves no further than one step |
| MCGame.Take | MCgame.py:447-448 | a take is 0 out of reach or from an empty node; else it empties the node or fills the ant, within capacity |
| MCGame.Gather | MCgame.py:446-451 | gathering keeps the load within capacity and takes from each node between 0 and its content |
| MCGame.GatherStep | MCgame.py:446-451 | gathering one more node adds exactly its take |
| MCGame.GatherConserves | MCgame.py:446-451 | gathering conserves load plus node contents |
| MCGame.GatherOutOfReach | MCgame.py:446-451 | with no node within reach nothing is gathered |
| MCGame.Dropped | MCgame.py:469-471 | at most one breadcrumb per ant, stamped now, at an on-map position |
| MCGame.DroppedSurvive | MCgame.py:93-96 | breadcrumbs dropped this frame survive the next filtering at the same time |
| MCGame.MoveAnt | MCgame.py:429-467 | an ant moves, then its loads, the rocks, the plants and the collected store are exactly what `Gathered` says: gathering over the rocks and then the plants in order, then a delivery of the whole load when it carries something within reach of home; each kind is conserved; the stock never drops; no node gains |
| MCGame.GatherAndDeliver | MCgame.py:445-467 | the same after the move |
| MCGame.Forage | MCgame.py:445-458 | the load and the rocks are what gathering over the rocks gives, and likewise for the plants; mining then grazing conserves both kinds and drains both node lists |
| MCGame.FilteredSpec | MCgame.py:345-357 | filtering keeps an element exactly when some flagged position holds it, and never lengthens the list |
| MCGame.FilteredDistinct | MCgame.py:345-357 | without repeats, an element is kept exactly when its own flag is set |
| MCGame.PruneRocks | MCgame.py:345-349 | the rock pass keeps exactly the rocks with minerals left, in order |
| MCGame.TendGrass | MCgame.py:351-357 | the grass pass keeps exactly the clusters that had resources left, in order, and each of them grows at the biome's rate up to its full content; the removed ones are untouched |
| MCGame.MovePixelAnts | MCgame.py:426-471 | every ant moves to its clamped step; nodes are unchanged; both kinds are conserved across the stock, all ants and all nodes; the stock never drops; nodes only lose; breadcrumbs are appended as rolled |
| MCGame.MoveAll | MCgame.py:428-471 | after the loop every pixel has moved and the totals are conserved |
| MCGame.NodeMoveTurn | MCgame.py:428-429 | a node pixel is skipped |
| MCGame.AntMoveTurn | MCgame.py:429-471 | one more ant has moved, with its breadcrumb |
| MCGame.AntMoved | MCgame.py:429-467 | one more ant has moved and the totals stay conserved |
| MCGame.AntStep | MCgame.py:429-467 | the ant moves, other pixels are untouched, and the totals over all pixels are conserved |

## Left out

- Drawing, sound, music playback, the HUD, the settings menu, the logo and the splash screen are not modelled. None of them changes the simulation state.
- Randomness, the clock and the frame time are parameters. So are square roots, trigonometry and the elastic wave term. Contracts quantify over every value.
- GameLoop.Game.Update: the spider's spawning, shelter, death timer and web handling (src/game.py:267-308) are not part of the frame model. The spider and webs are modelled at the entity level (`Entities.Spider`, `Entities.SpiderWeb`).
- `Spider.update`'s dispatch (src/entities.py:823-858) reads the wall clock and draws web placement at random. Its branches are modelled separately as `UpdateWandering`, `UpdateFleeing` and `FindShelter`. The death animation is drawing.
- `initialize_resources` is not modelled. The game constructor takes the starting nodes as parameters.
- `Colony.handle_click`'s hit test against the indicator rectangles is a parameter: one action per colony.
- The jump animation of ants (`start_jump`, `update_jump`) and the snake's wave offset only affect drawing.
- `is_transitioning` is computed but never used by any modelled behaviour.
- The `snake_sleep_position` branch is never taken, because nothing sets that attribute.
- Window resizing is not modelled; the window size is constant.
- GameLoop.Game.RefreshMood: states only that the world stays valid. The mood itself is stated by `GameState.Update`.
- GameLoop.Game.Flora: states that ants and colonies are untouched. The spawns are stated by `UpdateResources` and the growth step by `GrowPlants`.
- GameLoop.Game.UpdateAnts: for a collecting ant, states only that it took one of the collecting outcomes for some content its target held. The content it met and the colony stores a returning ant met depend on the ants before it, which the loop does not track. `StepAnt` states the exact step against the state at the ant's turn.
- GameLoop.Game.UpdateColonies: does not promise that the new ants are fresh objects. `TickOne` does, for each colony.
- GameLoop.Game.Update, GameLoop.Game.Creatures, GameLoop.Game.Swarm and GameLoop.Game.Prelude state the frame's invariants. They do not compose every step's full effect into one postcondition. `AdvanceClock`, `SnakeTurn`, `Forage` and `UpdateColonies` state each step's effect.
- GameLoop.Game.Forage: states which nodes each list keeps, not that they keep their order. `PruneDepleted` states the order, through `Surviving`.
- MCGame.PruneRocks and MCGame.TendGrass return the kept list instead of removing from it in place. They model the main loop's rock and grass passes (removal of depleted nodes and growth of the live grass). The drawing in those passes is left out.
- `MCgame.py`'s `main` loop is otherwise not modelled: events, biome selection, pixel placement and the call order. Neither are `Snake.detect_and_attack`, `Snake.update_danger_zones`, `Ant.leave_breadcrumb` (called from `main`) and the breadcrumb drawing.
- `MainPixelNode.has_sufficient_resources` is modelled as a predicate without a contract. No code calls it.
- MCGame.MovePixelAnts: `main_pixel_position` is a `Point`. It is `None` only before the node is placed, when there are no ants. The unused `snake` argument is dropped.
- MCGame.MovePixelAnts: each ant's exact take is stated per ant (`Ant.Mine`, `Ant.Graze`). The loop states only conservation, monotonicity and per-node draining, not how one ant's take depends on the ants before it.
- MCGame.AdaptToEnvironment, MCGame.TendGrass, MCGame.Ant.Mine, MCGame.Ant.Graze and MCGame.MovePixelAnts require the rock and plant lists (and the pixel objects) to be distinct. The source never builds a list with the same object twice.
- Integers in `src/` are Python integers, so there is no overflow to model. `MCgame.py`'s fractional contents (0.1, 0.01 and 1.5 increments) are reals, not floating point.

## Findings

| source | as written | input that shows it | evidently intended | confidence | as-written member | corrected member |
|---|---|---|---|---|---|---|
| MCgame.py:422-424 | the ant is asked for the 'durability' upgrade, which `Ant.upgrade` does not know, so 50 collected plants are debited and nothing is bought | collected plants = 50, collected minerals = 0, one ant | `upgrade('health_points')`, which adds the 'durability' effect of 1.5 health | not executed | MCGame.ExchangeAsWritten, MCGame.DurabilityBuysNothing | MCGame.Exchange, MCGame.DurabilityBuysHealth |
