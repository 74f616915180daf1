/** One frame of the game, `update` (GameCanvas.tsx:223-500), as a function on the
    world, and the world `initGame` (GameCanvas.tsx:53-208) starts it in. */
module Frame {
  import opened Geometry
  import opened Lists
  import opened Entities
  import opened State
  import opened Constants
  import opened Particles
  import opened Movement
  import opened WallPhase
  import opened PropPhase
  import opened ProjectilePhase
  import opened HumanPhase
  import opened WorldGen

  /** Half the side of the outermost ring: (600 + 5·450·2) / 2. */
  const WorldRadius: real := ((CENTER_ROOM_SIZE + LAYER_COUNT * LAYER_THICKNESS * 2) as real) / 2.0

  /** The monster wins once it is more than this far from the centre of the world. */
  const Escape: real := WorldRadius + 150.0

  /** The centre of the world, where the monster starts. */
  const Middle: Vec := Vec(Centre, Centre)

  /** The monster has left the laboratory. */
  predicate Escaped(m: Monster)
  {
    Beyond(DistSq(m.pos, Middle), Escape)
  }

  /** The victory check at the end of the frame. */
  function CheckVictory(w: World): World
  {
    if Escaped(w.monster) then w.(state := Victory) else w
  }

  /** Movement and camera follow: the monster moves by its displacement, and the camera
      eases towards the view centred on the new position, led by the raw (dx, dy). */
  function Move(w: World, input: Input, env: Env): World
  {
    var d := Intent(input.keys, input.joystick);
    var pos := w.monster.pos.Plus(Displacement(d, env.sqrt));
    w.(monster := w.monster.(pos := pos), camera := Follow(w.camera, CameraTarget(pos, d, env.view)))
  }

  /** The particle pass. */
  function Fade(w: World): World
  {
    w.(particles := Decay(w.particles))
  }

  /** One call of `update`: nothing unless the game is being played; otherwise the
      phases in their fixed order, each seeing what the previous one left. The frame's
      `Math.random()` results are `env.dice(0)`, `env.dice(1)`, ... in call order. */
  function Step(w: World, input: Input, env: Env): World
  {
    if w.state != Playing then w
    else
      var moved := Move(w.(draws := 0), input, env);
      var walled := WallPass(moved, env);
      var smashed := PropPass(walled, env);
      var shot := ProjectilePass(smashed, env);
      var fed := HumanPass(shot, env);
      CheckVictory(Fade(fed))
  }

  /** The monster record `monsterRef` holds before the first game. */
  function Dormant(): Monster
  {
    Monster(Zero, INITIAL_MONSTER_SIZE, 40.0, 1, 0, 5, 100)
  }

  /** The monster `initGame` places at the centre of the world. */
  function Newborn(): Monster
  {
    Monster(Middle, INITIAL_MONSTER_SIZE, 50.0, 1, 0, 5, 100)
  }

  /** The camera of a fresh game: a window of size `view` centred on the laboratory. */
  function Centred(view: Vec): Vec
  {
    Middle.Minus(Vec(view.x / 2.0, view.y / 2.0))
  }

  /** The world `initGame` builds around the humans and props `g` of the generated
      rings and a window of size `view`; the game state is the host's and is left as `state`. */
  function Initial(g: Gen, view: Vec, state: GameState): World
  {
    World(state, Newborn(), Centred(view),
          Walls(LAYER_COUNT), g.humans, g.props, [], [], Stats(0, 0), 0)
  }

  // ----- Properties of a frame -----

  /** The escape distance is 2700, and with a true `Math.hypot` the check is
      "distance from the centre above 2700". */
  lemma EscapeIsDistanceTest(m: Monster, dist: real)
    requires IsRootOf(dist, DistSq(m.pos, Middle))
    ensures Escape == 2700.0
    ensures Escaped(m) <==> dist > 2700.0
  {
    WithinIsDistanceTest(DistSq(m.pos, Middle), dist, Escape);
  }

  /** A frame outside play changes nothing. */
  lemma StepIdle(w: World, input: Input, env: Env)
    requires w.state != Playing
    ensures Step(w, input, env) == w
  {
  }

  /** After a frame of play the game is won exactly when the monster has escaped;
      otherwise it goes on or is lost. */
  lemma StepOutcome(w: World, input: Input, env: Env)
    requires w.state == Playing
    ensures var r := Step(w, input, env);
      (r.state == Victory <==> Escaped(r.monster)) &&
      (r.state != Victory ==> r.state == Playing || r.state == GameOver)
  {
    var moved := Move(w.(draws := 0), input, env);
    var walled := WallPass(moved, env);
    var smashed := PropPass(walled, env);
    var shot := ProjectilePass(smashed, env);
    WallPassSound(moved, env);
    PropPassSound(walled, env);
    ProjectilePassSound(smashed, env);
    HumanPassSound(shot, env);
  }

  /** What every frame keeps true: all walls alive, the monster at least radius 10,
      its experience below the level-up threshold, the monster above radius 12 while the
      game is played, and every tripped or shivering human still. */
  ghost predicate Sound(w: World)
  {
    Standing(w.walls) && w.monster.radius >= 10.0 && Leveling(w.monster) &&
    Alive(w) && AllStill(w.humans)
  }

  /** A fresh world is sound: no wall starts dead, the monster starts at 25 with no
      experience and a threshold of 5, and every generated human starts idle. */
  lemma InitialSound(dice: nat -> real, start: nat, view: Vec, state: GameState)
    requires Fair(dice)
    ensures Sound(Initial(Layout(dice, start), view, state))
  {
    LayoutSound(dice, start);
    var ws := Walls(LAYER_COUNT);
    WallsBuilt(LAYER_COUNT);
    forall j | 0 <= j < |ws|
      ensures ws[j].hp > 0
    {
      assert ws[j] in ws;
    }
  }

  /** Every frame keeps the world sound. */
  lemma StepSound(w: World, input: Input, env: Env)
    requires Sound(w)
    ensures Sound(Step(w, input, env))
  {
    if w.state == Playing {
      var moved := Move(w.(draws := 0), input, env);
      var walled := WallPass(moved, env);
      var smashed := PropPass(walled, env);
      var shot := ProjectilePass(smashed, env);
      var fed := HumanPass(shot, env);
      assert Step(w, input, env) == CheckVictory(Fade(fed));
      WallPassSound(moved, env);
      assert Standing(walled.walls) && walled.monster == moved.monster.(pos := walled.monster.pos);
      PropPassSound(walled, env);
      assert smashed.walls == walled.walls && smashed.monster == walled.monster;
      ProjectilePassSound(smashed, env);
      assert shot.walls == smashed.walls && shot.monster.radius >= 10.0;
      assert shot.humans == w.humans && Alive(smashed);
      assert shot.monster.exp == smashed.monster.exp && shot.monster.nextLevelExp == smashed.monster.nextLevelExp;
      HumanPassSound(shot, env);
      assert fed.walls == shot.walls && fed.monster.radius >= shot.monster.radius;
      assert fed.state == shot.state;
    }
  }

  /** Over a frame, the walls that remain are the live walls in their old order, each
      unchanged or worn by one blow of the monster's damage, and every wall that is gone
      was dead already or is counted as broken. */
  lemma StepWalls(w: World, input: Input, env: Env)
    requires w.state == Playing
    ensures var r := Step(w, input, env);
      Embeds(r.walls, w.walls, Worn(w.monster.damage)) &&
      r.stats.wallsBroken + |r.walls| + Count(w.walls, Dead) == w.stats.wallsBroken + |w.walls| &&
      r.monster.damage == w.monster.damage
  {
    var moved := Move(w.(draws := 0), input, env);
    var walled := WallPass(moved, env);
    var smashed := PropPass(walled, env);
    var shot := ProjectilePass(smashed, env);
    var fed := HumanPass(shot, env);
    assert Step(w, input, env) == CheckVictory(Fade(fed));
    WallPassSound(moved, env);
    assert moved.walls == w.walls && moved.stats == w.stats && moved.monster.damage == w.monster.damage;
    PropPassSound(walled, env);
    assert smashed.walls == walled.walls && smashed.stats == walled.stats && smashed.monster == walled.monster;
    ProjectilePassSound(smashed, env);
    assert shot.walls == smashed.walls && shot.stats == smashed.stats;
    HumanPassSound(shot, env);
    assert fed.walls == shot.walls && fed.stats.wallsBroken == shot.stats.wallsBroken;
  }

  /** Over a frame, the humans that remain are the same persons in their old order, and
      every one that is gone was eaten, each meal adding one experience point. */
  lemma StepHumans(w: World, input: Input, env: Env)
    requires w.state == Playing
    ensures var r := Step(w, input, env);
      var eaten := r.stats.humansEaten - w.stats.humansEaten;
      Embeds(r.humans, w.humans, SamePerson) &&
      eaten + |r.humans| == |w.humans| &&
      r.monster.exp == w.monster.exp + eaten
  {
    var moved := Move(w.(draws := 0), input, env);
    var walled := WallPass(moved, env);
    var smashed := PropPass(walled, env);
    var shot := ProjectilePass(smashed, env);
    WallPassSound(moved, env);
    PropPassSound(walled, env);
    ProjectilePassSound(smashed, env);
    HumanPassSound(shot, env);
  }
}
