# Lab escape: the simulation of GameCanvas, in Dafny

This project models the game loop of the "monster escapes the laboratory" game.

The player is a monster that starts in the centre room of a laboratory built from
five concentric square rings of wall segments. It moves with the keyboard or an
on-screen joystick. It eats the humans it reaches and grows with each meal. A wall
only yields once the monster is big enough for its ring; a smaller monster is pushed
back out of it. Props are smashed when the monster touches them. Soldiers and elites
shoot bullets that shrink the monster. The game is lost once the monster shrinks to
radius 12 or less, and won once it is more than 2700 from the centre of the world.

The model covers:

- the tuning constants (`constants.ts`);
- `initGame`, which builds the rings, places humans and props with the bounded
  rejection sampler `getSafePos`, and resets the monster and camera;
- `createParticles`;
- one call of `update`. Its phases run in order: movement, camera follow, walls,
  props, projectiles, humans (eating, trip recovery, combat, behaviour bands,
  walking and wall push-back), particles, and the victory check.

The model is built in two layers:

- **Specification functions.** Each phase is a pure function on a `World` value. The
  `filter` passes are expressed as `State.FilterFold`: the callback runs over the
  list in order, and each run sees the world the previous one left. Lemmas state
  what each callback and each pass does and preserves. `Frame.Step` is one frame,
  and `Frame.Sound` is an invariant every frame keeps.
- **The in-place code.** `Simulation.Game` is a class whose fields are the
  component's refs. Its methods change those fields step by step, with the source's
  loops and branches. Each method is proved to compute the corresponding function:
  `Game.Update` computes `Frame.Step`, `Game.InitGame` computes `Frame.Initial`
  over `WorldGen.Layout`, and `Game.CreateParticles` computes `Particles.Burst`.

The host's inputs are modelled as follows:

- **Random draws.** `Math.random()` is a stream `dice: nat -> real`. Each call in
  the source consumes the next index, in source order, and the world counts the
  draws a frame has taken.
  Facts that need every draw in [0, 1), as `Math.random()` promises, take
  `WorldGen.Fair(dice)` as a hypothesis.
- **Random angles.** Their cosine and sine come as `spin(k)`, and an aiming
  spread's as `tilt(k)`.
- **Square roots.** `sqrt` is a parameter. Every fact that needs a true square
  root takes it as a hypothesis (`Geometry.IsRootOf`).
- **Distance tests.** `Math.hypot(..) < r` is decided on squared distances
  (`Geometry.Within`), and `Geometry.WithinIsDistanceTest` shows the two agree.
- **Angles towards a point.** `cos(atan2(y, x))` and `sin(atan2(y, x))` form the
  unit vector along (x, y) (`Geometry.Heading`).
- **Window size.** `window.innerWidth` and `window.innerHeight` form `view`.

## Model

| member | source | states |
|---|---|---|
| Constants.WorldIsSquare | constants.ts:6-12 | the world is a square of side 600 + 5·450·2 = 5100 |
| Constants.EliteOutclassesSoldier | constants.ts:31-36 | an elite's weapon does more damage, reaches further and reloads faster than a soldier's |
| Constants.GrowthIsPositive | constants.ts:22-23 | eating strictly increases the monster's starting radius of 25 |
| Constants.MonsterOutrunsHumans | constants.ts:26-27 | MONSTER_SPEED exceeds HUMAN_SPEED + 1, the bound `WorldGen.Recruited` puts on a generated human's speed |
| Constants.SegmentsTileRings | constants.ts:7-20 | walls are thinner than half the centre room, and the segment length divides the centre room and a ring's width a positive number of times |
| Geometry.Clamp | 1123-main/components/GameCanvas.tsx:272-273 | `max(lo, min(v, hi))` lies in [lo, hi], is v inside the range, and otherwise the bound v passed |
| Geometry.DistSq | 1123-main/components/GameCanvas.tsx:274 | a squared distance is never negative |
| Geometry.WithinIsDistanceTest | 1123-main/components/GameCanvas.tsx:331-347 | with a true square root, the squared tests agree with `hypot(..) < bound` and, for a non-negative bound, with `hypot(..) > bound` |
| Geometry.ClosestPointIsNearest | 1123-main/components/GameCanvas.tsx:272-274 | the clamped point lies in the box, is no further from p than any point of the box, and is p itself when p is in the box |
| Geometry.AxisNearest | 1123-main/components/GameCanvas.tsx:272-273 | on one axis, the clamped coordinate is at least as close to v as any coordinate in the range |
| Geometry.HeadingIsUnit | 1123-main/components/GameCanvas.tsx:292-294 | (cos, sin) of `atan2(y, x)` is a unit vector, and scaling it by the length gives back (x, y) |
| Geometry.RotateKeepsLength | 1123-main/components/GameCanvas.tsx:399-403 | adding the spread to the aiming angle multiplies squared lengths |
| Geometry.ScaledToRadius | 1123-main/components/GameCanvas.tsx:251-255 | a vector of length d scaled by r / d has length r |
| Geometry.AxisStaysClamped | 1123-main/components/GameCanvas.tsx:289-295 | moving a point away from its clamped coordinate leaves the clamp where it was |
| Geometry.PushOneStretches | 1123-main/components/GameCanvas.tsx:289-295 | a push-back moves the centre to the closest point plus (centre − closest point) stretched by radius / dist |
| Geometry.PushOneReachesRim | 1123-main/components/GameCanvas.tsx:289-295 | after a push-back the circle exactly touches the box: same closest point, centre exactly `radius` away from it |
| State.FilterFold | 1123-main/components/GameCanvas.tsx:269-299 | a `filter` pass whose callback may change the world never keeps more elements than it visits |
| State.FilterFoldNext | 1123-main/components/GameCanvas.tsx:269-299 | the pass over i + 1 elements is the pass over i elements followed by one more callback |
| Movement.Axis | 1123-main/components/GameCanvas.tsx:237-240 | an axis is −1 exactly when only its minus key is held, 1 exactly when only its plus key is held, and 0 when both or neither are held |
| Movement.IntentCases | 1123-main/components/GameCanvas.tsx:237-246 | the keys give dx, dy in {−1, 0, 1} by the rule above; a non-zero joystick replaces them entirely |
| Movement.DisplacementBounded | 1123-main/components/GameCanvas.tsx:249-256 | the monster never moves more than MONSTER_SPEED a frame; an input longer than 1 moves it exactly MONSTER_SPEED, and a shorter one moves it MONSTER_SPEED × (dx, dy) |
| Movement.LongInputDisplacement | 1123-main/components/GameCanvas.tsx:251-255 | an input longer than 1 is rescaled to unit length, so the move is exactly MONSTER_SPEED |
| Movement.ShortInputDisplacement | 1123-main/components/GameCanvas.tsx:251-255 | a non-zero input of length at most 1 is not rescaled, so the move is MONSTER_SPEED × (dx, dy) and at most MONSTER_SPEED |
| Movement.FollowClosesGap | 1123-main/components/GameCanvas.tsx:265-266 | each frame the camera closes a tenth of its gap to the target, leaving nine tenths |
| Movement.FollowSettles | 1123-main/components/GameCanvas.tsx:265-266 | a camera on its target stays there |
| Particles.Shard | 1123-main/components/GameCanvas.tsx:212-219 | a new particle sits at (x, y) in the requested colour with life and maxLife 1.0 |
| Particles.Spray | 1123-main/components/GameCanvas.tsx:211-220 | exactly `count` particles, every one at (x, y) in `color` with full life (life = maxLife = 1) |
| Particles.SprayGrows | 1123-main/components/GameCanvas.tsx:211-220 | one more round of the loop appends the particle built from the next six draws |
| Particles.BurstAppends | 1123-main/components/GameCanvas.tsx:210-221 | `createParticles` appends exactly `count` fresh particles at (x, y) in the colour, keeps the earlier ones, takes six draws each and changes nothing else |
| Particles.Tick | 1123-main/components/GameCanvas.tsx:489-491 | after a frame a particle is never below the floor, has lost 0.02 of life, and keeps its colour and size |
| Particles.Decay | 1123-main/components/GameCanvas.tsx:488-493 | the pass keeps no more particles than it had, each with life above 0 and at or above the floor |
| Particles.DecayKeepsOrder | 1123-main/components/GameCanvas.tsx:488-493 | the kept particles are the ticked originals, in their old order |
| Particles.DecayCountsSurvivors | 1123-main/components/GameCanvas.tsx:488-493 | exactly the particles whose next life is above 0 are kept |
| Particles.TicksFade | 1123-main/components/GameCanvas.tsx:491 | n frames take 0.02·n of life |
| Particles.FreshParticleLastsFiftyFrames | 1123-main/components/GameCanvas.tsx:488-493 | a particle spawned with life 1.0 survives 49 passes and is dropped by the 50th |
| WallPhase.WallStepCases | 1123-main/components/GameCanvas.tsx:269-299 | one callback: a dead wall is dropped; an untouched wall is kept unchanged; a big enough monster takes exactly `damage` hp off and the wall goes, with wallsBroken + 1, exactly when its hp is now ≤ 0; a smaller monster leaves hp alone and only its own position changes |
| WallPhase.WallStepWorn | 1123-main/components/GameCanvas.tsx:276-286 | a kept wall was alive and is unchanged or worn by exactly one blow; the monster's damage is untouched |
| WallPhase.WallFoldFrame | 1123-main/components/GameCanvas.tsx:269-299 | the callbacks change only the monster's position, the broken-walls count, appended particles and draws |
| WallPhase.WallFoldKept | 1123-main/components/GameCanvas.tsx:269-299 | the kept walls are the visited walls in their old order, each unchanged or worn by one blow |
| WallPhase.WallFoldAlive | 1123-main/components/GameCanvas.tsx:270-286 | every kept wall has hp > 0 |
| WallPhase.WallFoldTally | 1123-main/components/GameCanvas.tsx:269-299 | every visited wall is kept, was dead already, or is counted as broken |
| WallPhase.WallPassSound | 1123-main/components/GameCanvas.tsx:269-299 | the wall pass keeps the live walls in order, each unchanged or worn by one blow and all alive; a wall that disappears was dead or is counted; nothing else but the monster's position, the count and the particles changes |
| PropPhase.PropFoldSound | 1123-main/components/GameCanvas.tsx:302-314 | the callbacks keep exactly the props the monster does not touch, in order, and append 12 particles per smashed prop |
| PropPhase.PropPassSound | 1123-main/components/GameCanvas.tsx:302-314 | the prop pass removes exactly the touched props, keeps the rest in order, appends 12 particles for each and changes nothing else |
| ProjectilePhase.Advance | 1123-main/components/GameCanvas.tsx:318-319 | a projectile moves by its velocity and nothing else about it changes |
| ProjectilePhase.ProjectileStepCases | 1123-main/components/GameCanvas.tsx:317-350 | one callback keeps the advanced projectile exactly when it is inside no wall, misses the monster and is within 1000 of the view's centre; a hit applies `max(10, radius − damage)`, so radius stays ≥ 10, and signals game over exactly when radius ≤ 12; walls, humans, props and stats never change |
| ProjectilePhase.ProjectileFoldSound | 1123-main/components/GameCanvas.tsx:317-350 | the callbacks keep only advanced projectiles, in order; radius ≥ 10 is kept; the only state change is to game over; a game still played keeps the monster above radius 12 |
| ProjectilePhase.ProjectilePassSound | 1123-main/components/GameCanvas.tsx:317-350 | the projectile pass keeps only advanced projectiles, in order; the monster never shrinks below 10; it can only signal game over, and does whenever a hit leaves the monster at radius 12 or less; only the projectiles, particles, draws, state and the monster's size change |
| HumanPhase.Grow | 1123-main/components/GameCanvas.tsx:361-377 | a meal adds 2.5 to the radius and 1 to exp; at the threshold the level rises by 1 and the threshold becomes ⌊1.5·threshold⌋ |
| HumanPhase.GrowKeepsLeveling | 1123-main/components/GameCanvas.tsx:365-368 | after a meal exp is still below the threshold, and the threshold never decreases |
| HumanPhase.Recover | 1123-main/components/GameCanvas.tsx:385-392 | a tripped human's timer drops by one; at ≤ 0 it runs, still panicked; nothing else changes |
| HumanPhase.CaughtIsDistanceTest | 1123-main/components/GameCanvas.tsx:355-358 | a human is eaten exactly when its distance is below the two radii plus 15 |
| HumanPhase.FireCases | 1123-main/components/GameCanvas.tsx:395-416 | an armed, non-shivering human counts its cooldown down; it fires exactly when in range and the cooldown is ≤ 0, appending one bullet at its position (3.0 damage for an elite, else 1.5) and resetting the cooldown; otherwise nothing else changes |
| HumanPhase.ShotSpeed | 1123-main/components/GameCanvas.tsx:399-403 | every bullet flies at PROJECTILE_SPEED |
| HumanPhase.BandFirstMatch | 1123-main/components/GameCanvas.tsx:419-451 | bands are first match: kite if armed and closer than range − 150, else flee below 500, else nervous below 700, else calm |
| HumanPhase.BehaveCases | 1123-main/components/GameCanvas.tsx:419-462 | kite and flee give `run`; only a fleeing scientist trips (draw < 0.003), with zero velocity and a 40–80 frame timer; nervous gives `shiver` with zero velocity on a draw < 0.05, else cower with the velocity kept (an existing shiver is kept); calm gives `idle` and, on a draw < 0.02, a velocity of 0.5 along the random angle, else on a second draw < 0.02 a stop, else the old velocity; only state, velocity, panic and timer change |
| HumanPhase.RunsAway | 1123-main/components/GameCanvas.tsx:419-441 | a running human heads straight away from the monster: its velocity has length 0.6·speed when kiting and speed when fleeing, and is that length times the unit vector from the monster to the human |
| HumanPhase.Wanders | 1123-main/components/GameCanvas.tsx:449-456 | a calm human that starts to wander moves at 0.5 per frame |
| HumanPhase.ShoveStill | 1123-main/components/GameCanvas.tsx:471-484 | a human touching no wall stays where it is |
| HumanPhase.HumanStepCases | 1123-main/components/GameCanvas.tsx:354-486 | one callback drops the human exactly when the monster reaches it, even a tripped one, growing the monster and counting the meal; a kept human is the same person, leaves the monster alone, and if tripped only recovers; walls are never touched |
| HumanPhase.HumanFoldFrame | 1123-main/components/GameCanvas.tsx:354-486 | the callbacks never change walls, props, camera, game state, the monster's position or damage, or the broken-walls count |
| HumanPhase.HumanFoldMeals | 1123-main/components/GameCanvas.tsx:354-380 | every missing human is counted as eaten, each meal adding 2.5 to the radius and 1 to exp |
| HumanPhase.HumanFoldKept | 1123-main/components/GameCanvas.tsx:354-486 | the kept humans are the same persons in their old order |
| HumanPhase.HumanStepStill | 1123-main/components/GameCanvas.tsx:425-448 | a kept tripped or shivering human has zero velocity if it had before the callback |
| HumanPhase.HumanFoldStill | 1123-main/components/GameCanvas.tsx:354-486 | the callbacks keep every tripped or shivering human still |
| HumanPhase.HumanFoldLeveling | 1123-main/components/GameCanvas.tsx:365-368 | the exp bookkeeping survives any number of meals |
| HumanPhase.HumanPassSound | 1123-main/components/GameCanvas.tsx:354-486 | the human pass keeps the same persons in order, counts each missing one as eaten with 2.5 growth and 1 exp, keeps exp below the threshold, keeps tripped and shivering humans still, and never changes walls, props, camera, game state or the monster's position |
| Frame.EscapeIsDistanceTest | 1123-main/components/GameCanvas.tsx:495-499 | the escape distance is 2700, and victory means the distance from the centre exceeds it |
| Frame.StepIdle | 1123-main/components/GameCanvas.tsx:224 | a frame outside play changes nothing |
| Frame.StepOutcome | 1123-main/components/GameCanvas.tsx:223-500 | after a frame of play the game is won exactly when the monster has escaped, and otherwise is still playing or lost |
| Frame.InitialSound | 1123-main/components/GameCanvas.tsx:53-208 | for draws in [0, 1), a fresh world has every wall alive, a monster of radius 25, exp below the threshold, and every human idle |
| Frame.StepSound | 1123-main/components/GameCanvas.tsx:223-500 | every frame keeps all walls alive, the monster at radius ≥ 10, exp below the threshold, the monster above radius 12 while the game is played, and every tripped or shivering human still |
| Frame.StepWalls | 1123-main/components/GameCanvas.tsx:268-299 | over a frame the walls that remain are the live walls in order, each unchanged or worn by one blow, and every wall that is gone was dead or is counted as broken |
| Frame.StepHumans | 1123-main/components/GameCanvas.tsx:354-486 | over a frame the remaining humans are the same persons in order, and every one gone was eaten, each adding one exp |
| WorldGen.HalfSizeIsHalfRing | 1123-main/components/GameCanvas.tsx:77-82 | ring i's half side is `currentSize / 2`, with the centre room for i = 0 |
| WorldGen.CeilDiv | 1123-main/components/GameCanvas.tsx:88-89 | the integer quotient is `Math.ceil(a / b)` |
| WorldGen.SegmentCounts | 1123-main/components/GameCanvas.tsx:88-89 | both side loops of ring i run 6 + 9i times |
| WorldGen.RingWallsLength | 1123-main/components/GameCanvas.tsx:88-120 | ring i has 2·ceil(size/100) + 2·ceil((size − 80)/100) = 24 + 36i walls |
| WorldGen.RingWallsStats | 1123-main/components/GameCanvas.tsx:84-120 | every wall of ring i has hp == maxHp == 60 + 60i, requiredSize == 40 + 20i, and layerIndex i |
| WorldGen.ColumnsOverrunBottom | 1123-main/components/GameCanvas.tsx:106-120 | the last left-column segment ends 40 past the ring's bottom edge, overlapping the bottom row |
| WorldGen.IsSafeIsDistanceTest | 1123-main/components/GameCanvas.tsx:132-140 | the safe test is the source's test on dx = \|px − startX\| and dy = \|py − startY\| |
| WorldGen.SafeSearchSound | 1123-main/components/GameCanvas.tsx:126-143 | the search returns only safe spots, stays within its draws, and gives up only when no whole attempt is left |
| WorldGen.GetSafePos | 1123-main/components/GameCanvas.tsx:126-143 | the `while` loop returns what the search returns within 50 attempts of two draws each |
| WorldGen.ArchetypeRanks | 1123-main/components/GameCanvas.tsx:148-170 | rings 0–1 hold only scientists and guards, soldiers appear from ring 2 and elites from ring 3; exactly soldiers and elites are armed, with their weapon's range and cooldown |
| WorldGen.Enlist | 1123-main/components/GameCanvas.tsx:145-183 | placing a human never changes the props |
| WorldGen.Stock | 1123-main/components/GameCanvas.tsx:186-200 | placing a prop never changes the humans |
| WorldGen.RecruitStartsCalm | 1123-main/components/GameCanvas.tsx:172-181 | for draws in [0, 1), a recruited human starts idle and still at a safe spot of its ring, unarmed in rings 0–1, with a speed in [HUMAN_SPEED, HUMAN_SPEED + 1) |
| WorldGen.EnlistKeeps | 1123-main/components/GameCanvas.tsx:145-183 | one round of the humans loop adds at most one human, well formed for draws in [0, 1) |
| WorldGen.PlaceHumansKeeps | 1123-main/components/GameCanvas.tsx:145-183 | the humans loop adds at most one human per slot, well formed for draws in [0, 1), and leaves the props alone |
| WorldGen.StockKeeps | 1123-main/components/GameCanvas.tsx:186-200 | one round of the props loop adds at most one well-formed prop |
| WorldGen.PlacePropsKeeps | 1123-main/components/GameCanvas.tsx:185-200 | the props loop adds at most one well-formed prop per slot and leaves the humans alone |
| WorldGen.GenRingPopulated | 1123-main/components/GameCanvas.tsx:122-200 | for draws in [0, 1), one ring of generation keeps every human and prop well formed |
| WorldGen.GenRingRoom | 1123-main/components/GameCanvas.tsx:123-200 | ring i adds at most 10 + 8i humans and 6 + 5i props |
| WorldGen.GenRingsRoom | 1123-main/components/GameCanvas.tsx:76-201 | the ring loop adds at most the head counts and prop counts of the rings it generates |
| WorldGen.LayoutRoom | 1123-main/components/GameCanvas.tsx:76-201 | `initGame` places at most 130 humans and 80 props |
| WorldGen.GenRingsPopulated | 1123-main/components/GameCanvas.tsx:76-201 | for draws in [0, 1), the ring loop keeps every human and prop well formed |
| WorldGen.WallsBuilt | 1123-main/components/GameCanvas.tsx:76-120 | every generated wall starts intact with its ring's hp and size threshold |
| WorldGen.WallTotal | 1123-main/components/GameCanvas.tsx:76-120 | the five rings hold 480 walls |
| WorldGen.LayoutSound | 1123-main/components/GameCanvas.tsx:76-201 | for draws in [0, 1), every human and prop `initGame` places is well formed |
| WorldGen.MonsterOutrunsLayout | 1123-main/components/GameCanvas.tsx:172-181 | for draws in [0, 1), every human `initGame` places is slower than MONSTER_SPEED |
| WorldGen.BuildRingWalls | 1123-main/components/GameCanvas.tsx:91-120 | the two wall loops push ring i's walls in source order |
| WorldGen.PlaceRingHumans | 1123-main/components/GameCanvas.tsx:145-183 | the humans loop computes the humans placement function |
| WorldGen.PlaceRingProps | 1123-main/components/GameCanvas.tsx:186-200 | the props loop computes the props placement function |
| WorldGen.GenerateRing | 1123-main/components/GameCanvas.tsx:76-201 | one iteration builds ring i's walls, humans and props and moves to ring i + 1 |
| WorldGen.GenerateLayout | 1123-main/components/GameCanvas.tsx:76-201 | the ring loop produces all walls and the generated humans and props |
| Simulation.Laboratory | 1123-main/components/GameCanvas.tsx:53-208 | the records `initGame` builds form the initial world |
| Simulation.Game.constructor | 1123-main/components/GameCanvas.tsx:28-50 | the refs start on the menu with a dormant monster of radius 25 and nothing built |
| Simulation.Game.InitGame | 1123-main/components/GameCanvas.tsx:53-208 | `initGame` leaves the initial world: fresh monster in the centre, camera centred on it, generated rings, no projectiles or particles, zero stats |
| Simulation.Game.Load | 1123-main/components/GameCanvas.tsx:203-207 | every ref gets the value it has in the given world |
| Simulation.Game.CreateParticles | 1123-main/components/GameCanvas.tsx:210-221 | the loop appends the burst of `count` particles |
| Simulation.Game.ReadIntent | 1123-main/components/GameCanvas.tsx:235-246 | (dx, dy) is read from the keys and overridden by the joystick |
| Simulation.Game.MoveMonster | 1123-main/components/GameCanvas.tsx:235-266 | the monster moves by its displacement and the camera follows |
| Simulation.Game.VisitWall | 1123-main/components/GameCanvas.tsx:269-299 | the wall callback in place computes the wall step |
| Simulation.Game.Strike | 1123-main/components/GameCanvas.tsx:277-286 | a blow, the chip roll and the breaking bookkeeping compute the wall step |
| Simulation.Game.Chip | 1123-main/components/GameCanvas.tsx:280 | one draw, and above 0.8 three chips at the closest point |
| Simulation.Game.Crumble | 1123-main/components/GameCanvas.tsx:281-285 | a broken wall is counted and sprays 15 pieces at its centre |
| Simulation.Game.UpdateWalls | 1123-main/components/GameCanvas.tsx:269-299 | the wall loop computes the wall pass |
| Simulation.Game.VisitProp | 1123-main/components/GameCanvas.tsx:302-314 | the prop callback computes the prop step |
| Simulation.Game.UpdateProps | 1123-main/components/GameCanvas.tsx:302-314 | the prop loop computes the prop pass |
| Simulation.Game.Lodges | 1123-main/components/GameCanvas.tsx:322-328 | the wall loop of a projectile finds a hit exactly when the point is strictly inside some wall |
| Simulation.Game.VisitProjectile | 1123-main/components/GameCanvas.tsx:317-350 | the projectile callback computes the projectile step |
| Simulation.Game.UpdateProjectiles | 1123-main/components/GameCanvas.tsx:317-350 | the projectile loop computes the projectile pass |
| Simulation.Game.Devour | 1123-main/components/GameCanvas.tsx:358-379 | eating sprays blood, counts the meal and grows the monster |
| Simulation.Game.Combat | 1123-main/components/GameCanvas.tsx:395-416 | the combat block computes the firing rule |
| Simulation.Game.Decide | 1123-main/components/GameCanvas.tsx:419-462 | the behaviour block computes the band behaviour and stops exactly when the human tripped |
| Simulation.Game.Scramble | 1123-main/components/GameCanvas.tsx:425-441 | the flee branch computes the band behaviour and stops exactly on a trip |
| Simulation.Game.Hesitate | 1123-main/components/GameCanvas.tsx:442-450 | the nervous branch computes the band behaviour |
| Simulation.Game.Wander | 1123-main/components/GameCanvas.tsx:451-461 | the calm branch computes the band behaviour |
| Simulation.Game.ShoveHuman | 1123-main/components/GameCanvas.tsx:471-484 | the wall loop of a human applies one push-back per wall, in order |
| Simulation.Game.VisitHuman | 1123-main/components/GameCanvas.tsx:354-486 | the human callback computes the human step |
| Simulation.Game.Act | 1123-main/components/GameCanvas.tsx:394-485 | combat, then behaviour, then (unless just tripped) a step and the wall push-backs |
| Simulation.Game.UpdateHumans | 1123-main/components/GameCanvas.tsx:354-486 | the human loop computes the human pass |
| Simulation.Game.UpdateParticles | 1123-main/components/GameCanvas.tsx:488-493 | the particle loop computes the particle pass |
| Simulation.Game.Update | 1123-main/components/GameCanvas.tsx:223-500 | `update` computes one frame, and keeps a sound world sound |

## Left out

- Rendering (`draw` and its helpers), frame scheduling with `requestAnimationFrame`, React effects, and the keyboard and resize listeners: these are host I/O. A frame's input is the set of lower-cased keys held and the joystick vector. The host calls `InitGame` when play starts.
- Screen shake, the eat flash and the hurt flash: these only feed the renderer.
- The `onStatsUpdate` and `onLogUpdate` callbacks and narration. The narration calls are commented out in the source. The eaten and broken counts are kept in the world.
- String ids of particles, bullets, walls, humans and props. Walls, humans and props carry structured ids instead. The `Math.random()` and `Date.now()` draws that go into ids are still consumed from the stream, and `Date.now()` takes no draw.
- Fields nothing in the simulation reads: the monster's hp, maxHp, velocity, colour and id; a wall's isBreakable; a prop's hp and isDead; a human's direction. The draw that sets a human's direction is still consumed.
- `Math.random`, `Math.cos`, `Math.sin`, `Math.atan2`, `Math.hypot` and `Math.sqrt` are supplied by the host. Only facts about them that a lemma needs are assumed, as hypotheses, never as axioms.
- Floating point: every number is an exact real, with no rounding.
- `setGameState` is asynchronous in React. The model writes the game state at once, so a later write in the same frame wins. A frame that both sends the monster below radius 12 and carries it past the escape distance therefore ends in victory.
- Constants that the simulation does not use: the canvas size, TERMINAL_VELOCITY, VISUAL_Z_SCALE, the colour strings (colours are an enumeration) and KEYS (`update` tests literal key names).
- Simulation.Game.Update: `Frame.Sound` covers live walls, the radius floor, the experience threshold, the game-over radius and still tripped or shivering humans. It does not bound positions or the lengths of the projectile and particle lists.
- Two edge cases follow the code. A shivering human whose draw does not renew the shiver keeps its velocity. A monster whose centre lies on a wall (`dist == 0`) is not pushed back.
