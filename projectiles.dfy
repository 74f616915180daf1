/** The projectile pass of `update` (GameCanvas.tsx:316-350): every projectile advances
    by its velocity and is then removed when it is lodged strictly inside a wall, when
    it hits the monster (which shrinks, down to a floor), or when it is more than 1000
    from the centre of the view. */
module ProjectilePhase {
  import opened Geometry
  import opened Lists
  import opened Entities
  import opened State
  import opened Particles

  /** One frame of flight. */
  function Advance(p: Projectile): (q: Projectile)
    ensures q.At() == p.At().Plus(Vec(p.vx, p.vy))
    ensures q.(x := p.x, y := p.y) == p
  {
    p.(x := p.x + p.vx, y := p.y + p.vy)
  }

  /** `p` lies strictly inside some wall of `walls`. */
  predicate Lodged(p: Vec, walls: seq<Wall>)
  {
    exists j :: 0 <= j < |walls| && StrictlyInside(p, walls[j].Box())
  }

  /** The centre of the view: the camera's corner plus half the window. */
  function ViewCentre(camera: Vec, view: Vec): Vec
  {
    Vec(camera.x + view.x / 2.0, camera.y + view.y / 2.0)
  }

  /** The monster after a hit of `damage`: it shrinks, but not below radius 10 and
      height 20. */
  function Hurt(m: Monster, damage: real): Monster
  {
    m.(radius := Max(10.0, m.radius - damage), visualHeight := Max(20.0, m.visualHeight - damage * 0.2))
  }

  /** The `filter` callback on one projectile. */
  function ProjectileStep(w: World, proj: Projectile, env: Env): Stepped<Projectile>
  {
    var q := Advance(proj);
    if Lodged(q.At(), w.walls) then
      Stepped(Burst(w, q.x, q.y, 20.0, Spark, 3, 1.0, env), None)
    else if Within(DistSq(q.At(), w.monster.pos), w.monster.radius) then
      var splashed := Burst(w, q.x, q.y, 20.0, MonsterViolet, 5, 1.0, env);
      var m := Hurt(w.monster, q.damage);
      Stepped(splashed.(monster := m, state := if m.radius <= 12.0 then GameOver else w.state), None)
    else if Beyond(DistSq(q.At(), ViewCentre(w.camera, env.view)), 1000.0) then Stepped(w, None)
    else Stepped(w, Some(q))
  }

  function ProjectileStepper(env: Env): (World, Projectile) -> Stepped<Projectile>
  {
    (w: World, proj: Projectile) => ProjectileStep(w, proj, env)
  }

  function ProjectilePass(w: World, env: Env): World
  {
    var p := FilterFold(w.projectiles, w, ProjectileStepper(env));
    p.world.(projectiles := p.kept)
  }

  /** `a` is `b` one frame further on. */
  predicate Advanced(a: Projectile, b: Projectile)
  {
    a == Advance(b)
  }

  /** One callback: the advanced projectile is kept exactly when it is not lodged in a
      wall, does not hit the monster and is within 1000 of the view's centre; a hit
      shrinks the monster to `Hurt` (never below radius 10) and signals game over
      exactly when the radius is now at most 12; nothing but a hit changes the monster
      or the game state, and the walls, humans and props are never touched. */
  lemma ProjectileStepCases(w: World, proj: Projectile, env: Env)
    ensures var s := ProjectileStep(w, proj, env);
      var q := Advance(proj);
      var hit := !Lodged(q.At(), w.walls) && Within(DistSq(q.At(), w.monster.pos), w.monster.radius);
      (s.kept.Some? <==>
        !Lodged(q.At(), w.walls) && !Within(DistSq(q.At(), w.monster.pos), w.monster.radius) &&
        !Beyond(DistSq(q.At(), ViewCentre(w.camera, env.view)), 1000.0)) &&
      (s.kept.Some? ==> s.kept.value == q) &&
      (hit ==> s.world.monster == Hurt(w.monster, q.damage) && s.world.monster.radius >= 10.0 &&
               (s.world.state == GameOver <==> s.world.monster.radius <= 12.0 || w.state == GameOver) &&
               (s.world.monster.radius > 12.0 ==> s.world.state == w.state)) &&
      (!hit ==> s.world.monster == w.monster && s.world.state == w.state) &&
      s.world.walls == w.walls && s.world.humans == w.humans && s.world.props == w.props &&
      s.world.projectiles == w.projectiles && s.world.camera == w.camera && s.world.stats == w.stats
  {
  }

  /** What the projectile pass leaves alone: everything but the bullets, the particles,
      the draws, the game state and the monster's size. */
  ghost predicate ProjectileFrame(a: World, b: World)
  {
    b.walls == a.walls && b.humans == a.humans && b.props == a.props &&
    b.projectiles == a.projectiles && b.camera == a.camera && b.stats == a.stats &&
    b.monster.(radius := a.monster.radius, visualHeight := a.monster.visualHeight) == a.monster
  }

  /** While the game is played the monster is above radius 12: a hit that shrinks it
      to 12 or less ends the game. */
  ghost predicate Alive(w: World)
  {
    w.state == Playing ==> w.monster.radius > 12.0
  }

  /** The callbacks over `xs` keep, in order, advanced projectiles only; leave the
      monster's radius at least 10 if it was; can only change the game state to game
      over, and do so whenever a hit leaves the monster at 12 or less, so they keep
      `Alive`; and change nothing `ProjectileFrame` names. */
  lemma {:induction false} ProjectileFoldSound(xs: seq<Projectile>, w0: World, env: Env)
    ensures var p := FilterFold(xs, w0, ProjectileStepper(env));
      Embeds(p.kept, xs, Advanced) && ProjectileFrame(w0, p.world) &&
      (w0.monster.radius >= 10.0 ==> 10.0 <= p.world.monster.radius) &&
      (p.world.state != w0.state ==> p.world.state == GameOver) &&
      (Alive(w0) ==> Alive(p.world))
    decreases |xs|
  {
    if xs != [] {
      var p := FilterFold(Front(xs), w0, ProjectileStepper(env));
      ProjectileFoldSound(Front(xs), w0, env);
      var x := Last(xs);
      var s := ProjectileStep(p.world, x, env);
      ProjectileStepCases(p.world, x, env);
      FrontLast(xs);
      var kept := FilterFold(xs, w0, ProjectileStepper(env)).kept;
      assert kept == p.kept + Elements(s.kept);
      if s.kept.Some? {
        EmbedsKeep(p.kept, Front(xs), s.kept.value, x, Advanced);
        assert kept == p.kept + [s.kept.value];
      } else {
        EmbedsSkip(p.kept, Front(xs), x, Advanced);
        assert kept == p.kept;
      }
    }
  }

  /** The projectile pass keeps, in order, only advanced projectiles; a monster of
      radius at least 10 stays at least 10; the only state it can signal is game over;
      and a game still being played has a monster above radius 12. */
  lemma ProjectilePassSound(w: World, env: Env)
    ensures var r := ProjectilePass(w, env);
      Embeds(r.projectiles, w.projectiles, Advanced) &&
      ProjectileFrame(w, r.(projectiles := w.projectiles)) &&
      (w.monster.radius >= 10.0 ==> r.monster.radius >= 10.0) &&
      (r.state != w.state ==> r.state == GameOver) &&
      (Alive(w) ==> Alive(r))
  {
    ProjectileFoldSound(w.projectiles, w, env);
  }
}
