/** The refs of GameCanvas.tsx as the fields of one object, and the code that changes
    them in place: `initGame` (:53-208), `createParticles` (:210-221) and `update`
    (:223-500), each proved to compute the functions of `Frame` and the phase modules. */
module Simulation {
  import opened Geometry
  import opened Lists
  import opened Entities
  import opened State
  import opened Constants
  import opened Particles
  import opened Movement
  import opened WallPhase
  import opened PropPhase
  import opened ProjectilePhase
  import opened HumanPhase
  import opened WorldGen
  import opened Frame

  /** The records `initGame` builds, gathered into a world in state `state`. */
  method Laboratory(dice: nat -> real, start: nat, view: Vec, state: GameState) returns (w: World)
    ensures w == Initial(Layout(dice, start), view, state)
  {
    var builtWalls, g := GenerateLayout(dice, start);
    var builtHumans, builtProps := g.humans, g.props;
    w := World(state, Newborn(), Centred(view), builtWalls, builtHumans, builtProps, [], [], Stats(0, 0), 0);
  }

  class Game {
    var state: GameState
    var monster: Monster
    var camera: Vec
    var walls: seq<Wall>
    var humans: seq<Human>
    var props: seq<Prop>
    var projectiles: seq<Projectile>
    var particles: seq<Particle>
    var stats: Stats
    /** The results of `Math.random()` the current frame has consumed. */
    var draws: nat

    /** The fields as a world. */
    function Snapshot(): World
      reads this
    {
      World(state, monster, camera, walls, humans, props, projectiles, particles, stats, draws)
    }

    /** The refs as the component mounts: on the menu, a dormant monster, nothing built. */
    constructor()
      ensures Snapshot() == World(Menu, Dormant(), Zero, [], [], [], [], [], Stats(0, 0), 0)
    {
      state := Menu;
      monster := Dormant();
      camera := Zero;
      walls, humans, props, projectiles, particles := [], [], [], [], [];
      stats := Stats(0, 0);
      draws := 0;
    }

    /** `initGame`: a fresh monster at the centre, the camera on it, and the laboratory
        generated from the draws `dice(start)`, `dice(start + 1)`, ... (for draws in
        [0, 1), a sound world, by `InitialSound`). */
    method InitGame(dice: nat -> real, start: nat, view: Vec)
      modifies this
      ensures Snapshot() == Initial(Layout(dice, start), view, old(state))
    {
      var w := Laboratory(dice, start, view, state);
      Load(w);
    }

    /** Every ref set to the value it has in `w`. */
    method Load(w: World)
      modifies this
      ensures Snapshot() == w
    {
      state, monster, camera, stats := w.state, w.monster, w.camera, w.stats;
      walls, humans, props := w.walls, w.humans, w.props;
      particles, projectiles, draws := w.particles, w.projectiles, w.draws;
    }

    /** `createParticles`: `count` particles at (x, y), six draws each. */
    method CreateParticles(x: real, y: real, z: real, color: Color, count: nat, mult: real, env: Env)
      modifies this
      ensures Snapshot() == Burst(old(Snapshot()), x, y, z, color, count, mult, env)
    {
      for i := 0 to count
        invariant particles == old(particles) + Spray(x, y, z, color, i, mult, env, old(draws))
        invariant draws == old(draws) + DrawsPerParticle * i
        invariant Snapshot().(particles := old(particles), draws := old(draws)) == old(Snapshot())
      {
        SprayGrows(x, y, z, color, i, mult, env, old(draws));
        particles := particles + [Shard(x, y, z, color, mult, env, draws)];
        draws := draws + DrawsPerParticle;
      }
    }

    /** (dx, dy) of the frame: the arrow or WASD keys, overridden by the joystick. */
    static method ReadIntent(input: Input) returns (d: Vec)
      ensures d == Intent(input.keys, input.joystick)
    {
      var keys := input.keys;
      var dx, dy := 0.0, 0.0;
      if "w" in keys || "arrowup" in keys { dy := dy - 1.0; }
      if "s" in keys || "arrowdown" in keys { dy := dy + 1.0; }
      if "a" in keys || "arrowleft" in keys { dx := dx - 1.0; }
      if "d" in keys || "arrowright" in keys { dx := dx + 1.0; }
      if input.joystick.x != 0.0 || input.joystick.y != 0.0 {
        dx, dy := input.joystick.x, input.joystick.y;
      }
      d := Vec(dx, dy);
    }

    /** Monster movement and camera follow. */
    method MoveMonster(input: Input, env: Env)
      modifies this
      ensures Snapshot() == Move(old(Snapshot()), input, env)
    {
      var d := ReadIntent(input);
      var pos := monster.pos;
      if d.x != 0.0 || d.y != 0.0 {
        var length := env.sqrt(d.NormSq());
        var scale := if length > 1.0 then 1.0 / length else 1.0;
        pos := pos.Plus(d.Scale(scale).Scale(MONSTER_SPEED));
      }
      assert pos == monster.pos.Plus(Displacement(d, env.sqrt));
      monster := monster.(pos := pos);
      camera := Follow(camera, CameraTarget(pos, d, env.view));
    }

    /** The callback of the wall pass on one wall. */
    method VisitWall(wall: Wall, env: Env) returns (kept: Option<Wall>)
      modifies this
      ensures Stepped(Snapshot(), kept) == WallStep(old(Snapshot()), wall, env)
    {
      if wall.hp <= 0 {
        return None;
      }
      var c := ClosestPoint(monster.pos, wall.Box());
      if DistSq(monster.pos, c) < Mul(monster.radius, monster.radius) {
        assert Touches(monster, wall);
        if monster.radius >= wall.requiredSize {
          kept := Strike(wall, env);
          return;
        }
        monster := monster.(pos := PushOne(monster.pos, monster.radius, wall.Box(), env.sqrt));
      }
      return Some(wall);
    }

    /** A live wall the monster touches and is big enough to damage: one blow, a roll
        for a chip spray, and the breaking bookkeeping. */
    method Strike(wall: Wall, env: Env) returns (kept: Option<Wall>)
      requires wall.hp > 0 && Touches(monster, wall) && monster.radius >= wall.requiredSize
      modifies this
      ensures Stepped(Snapshot(), kept) == WallStep(old(Snapshot()), wall, env)
    {
      var hit := wall.(hp := wall.hp - monster.damage);
      Chip(ClosestPoint(monster.pos, wall.Box()), env);
      if hit.hp <= 0 {
        Crumble(wall, env);
        return None;
      }
      return Some(hit);
    }

    /** One draw; above 0.8 it sprays three chips at `c`. */
    method Chip(c: Vec, env: Env)
      modifies this
      ensures Snapshot() == Chipped(old(Snapshot()), c, env)
    {
      ghost var w := Snapshot();
      var roll := env.dice(draws);
      draws := draws + 1;
      assert Snapshot() == w.(draws := w.draws + 1);
      if roll > 0.8 {
        CreateParticles(c.x, c.y, 20.0, WallBroken, 3, 1.0, env);
      }
    }

    /** A broken wall: counted, and fifteen pieces of its base sprayed at its centre. */
    method Crumble(wall: Wall, env: Env)
      modifies this
      ensures Snapshot() == Broken(old(Snapshot()), wall, env)
    {
      stats := stats.(wallsBroken := stats.wallsBroken + 1);
      CreateParticles(wall.Box().Mid().x, wall.Box().Mid().y, 0.0, WallBase, 15, 1.0, env);
    }

    /** The wall pass. */
    method UpdateWalls(env: Env)
      modifies this
      ensures Snapshot() == WallPass(old(Snapshot()), env)
    {
      var xs := walls;
      ghost var w0 := Snapshot();
      var kept: seq<Wall> := [];
      for i := 0 to |xs|
        invariant walls == xs
        invariant Pass(Snapshot(), kept) == FilterFold(xs[..i], w0, WallStepper(env))
      {
        var keep := VisitWall(xs[i], env);
        WallStepCases(FilterFold(xs[..i], w0, WallStepper(env)).world, xs[i], env);
        FilterFoldNext(xs, i, w0, WallStepper(env));
        if keep.Some? {
          kept := kept + [keep.value];
        }
      }
      assert xs[..|xs|] == xs;
      walls := kept;
    }

    /** The callback of the prop pass on one prop. */
    method VisitProp(prop: Prop, env: Env) returns (kept: Option<Prop>)
      modifies this
      ensures Stepped(Snapshot(), kept) == PropStep(old(Snapshot()), prop, env)
    {
      ghost var w := Snapshot();
      var c := ClosestPoint(monster.pos, prop.Box());
      if DistSq(monster.pos, c) < Mul(monster.radius, monster.radius) {
        assert Smashes(w.monster, prop);
        CreateParticles(prop.Box().Mid().x, prop.Box().Mid().y, 20.0, Splash(prop.kind), Debris, 1.5, env);
        assert PropStep(w, prop, env) == Stepped(Snapshot(), None);
        return None;
      }
      assert PropStep(w, prop, env) == Stepped(w, Some(prop));
      return Some(prop);
    }

    /** The prop pass. */
    method UpdateProps(env: Env)
      modifies this
      ensures Snapshot() == PropPass(old(Snapshot()), env)
    {
      var xs := props;
      ghost var w0 := Snapshot();
      var kept: seq<Prop> := [];
      for i := 0 to |xs|
        invariant props == xs
        invariant Pass(Snapshot(), kept) == FilterFold(xs[..i], w0, PropStepper(env))
      {
        var keep := VisitProp(xs[i], env);
        FilterFoldNext(xs, i, w0, PropStepper(env));
        if keep.Some? {
          kept := kept + [keep.value];
        }
      }
      assert xs[..|xs|] == xs;
      props := kept;
    }

    /** The wall loop of a projectile: whether `p` is strictly inside a wall. */
    method Lodges(p: Vec) returns (hit: bool)
      ensures hit == Lodged(p, walls)
    {
      for j := 0 to |walls|
        invariant forall i :: 0 <= i < j ==> !StrictlyInside(p, walls[i].Box())
      {
        var wall := walls[j];
        if p.x > wall.x && p.x < wall.x + wall.width && p.y > wall.y && p.y < wall.y + wall.height {
          assert StrictlyInside(p, walls[j].Box());
          return true;
        }
      }
      return false;
    }

    /** The callback of the projectile pass on one projectile. */
    method VisitProjectile(proj: Projectile, env: Env) returns (kept: Option<Projectile>)
      modifies this
      ensures Stepped(Snapshot(), kept) == ProjectileStep(old(Snapshot()), proj, env)
    {
      ghost var w := Snapshot();
      var q := proj.(x := proj.x + proj.vx, y := proj.y + proj.vy);
      assert q == Advance(proj);
      var lodged := Lodges(q.At());
      if lodged {
        CreateParticles(q.x, q.y, 20.0, Spark, 3, 1.0, env);
        assert ProjectileStep(w, proj, env) == Stepped(Snapshot(), None);
        return None;
      }
      if Within(DistSq(q.At(), monster.pos), monster.radius) {
        CreateParticles(q.x, q.y, 20.0, MonsterViolet, 5, 1.0, env);
        ghost var splashed := Snapshot();
        assert splashed == Burst(w, q.x, q.y, 20.0, MonsterViolet, 5, 1.0, env);
        monster := monster.(radius := Max(10.0, monster.radius - q.damage),
                            visualHeight := Max(20.0, monster.visualHeight - q.damage * 0.2));
        assert monster == Hurt(w.monster, q.damage);
        if monster.radius <= 12.0 {
          state := GameOver;
        }
        assert Snapshot() == splashed.(monster := Hurt(w.monster, q.damage), state := if monster.radius <= 12.0 then GameOver else w.state);
        return None;
      }
      if Beyond(DistSq(q.At(), ViewCentre(camera, env.view)), 1000.0) {
        return None;
      }
      return Some(q);
    }

    /** The projectile pass. */
    method UpdateProjectiles(env: Env)
      modifies this
      ensures Snapshot() == ProjectilePass(old(Snapshot()), env)
    {
      var xs := projectiles;
      ghost var w0 := Snapshot();
      var kept: seq<Projectile> := [];
      for i := 0 to |xs|
        invariant projectiles == xs
        invariant Pass(Snapshot(), kept) == FilterFold(xs[..i], w0, ProjectileStepper(env))
      {
        ProjectileStepCases(Snapshot(), xs[i], env);
        var keep := VisitProjectile(xs[i], env);
        FilterFoldNext(xs, i, w0, ProjectileStepper(env));
        if keep.Some? {
          kept := kept + [keep.value];
        }
      }
      assert xs[..|xs|] == xs;
      projectiles := kept;
    }

    /** The monster eats `h`. */
    method Devour(h: Human, env: Env)
      modifies this
      ensures Snapshot() == Eat(old(Snapshot()), h, env)
    {
      CreateParticles(h.pos.x, h.pos.y, 20.0, Blood, 15, 1.0, env);
      stats := stats.(humansEaten := stats.humansEaten + 1);
      monster := monster.(radius := monster.radius + GROWTH_PER_HUMAN, visualHeight := monster.visualHeight + 0.5);
      monster := monster.(exp := monster.exp + 1);
      if monster.exp >= monster.nextLevelExp {
        monster := monster.(level := monster.level + 1, nextLevelExp := (monster.nextLevelExp * 3) / 2);
      }
    }

    /** Combat of one human. */
    method Combat(h0: Human, dsq: real, env: Env) returns (h: Human)
      modifies this
      ensures Turn(Snapshot(), h) == Fire(old(Snapshot()), h0, dsq, env)
    {
      h := h0;
      if h.canShoot && h.state != Shiver {
        h := h.(attackCooldown := h.attackCooldown - 1.0);
        if Within(dsq, h.attackRange) && h.attackCooldown <= 0.0 {
          var aim := Heading(monster.pos.Minus(h.pos), env.sqrt);
          var dir := Rotate(aim, env.tilt(draws));
          draws := draws + 1;
          projectiles := projectiles + [Shot(h, dir)];
          draws := draws + 1;
          h := h.(attackCooldown := h.maxCooldown);
        }
      }
    }

    /** The behaviour decision of one human; `stop` is the early return of a trip. */
    method Decide(h0: Human, dsq: real, env: Env) returns (h: Human, stop: bool)
      requires h0.state != Trip
      modifies this
      ensures Turn(Snapshot(), h) == Behave(old(Snapshot()), h0, dsq, env)
      ensures stop <==> h.state == Trip
    {
      stop := false;
      if h0.canShoot && Within(dsq, h0.attackRange - 150.0) {
        h := h0.(state := Run);
        var away := Heading(h.pos.Minus(monster.pos), env.sqrt);
        h := h.(velocity := away.Scale(h.speed * 0.6));
      } else if Within(dsq, 500.0) {
        h, stop := Scramble(h0, dsq, env);
      } else if Within(dsq, 700.0) {
        h := Hesitate(h0, dsq, env);
      } else {
        h := Wander(h0, dsq, env);
      }
    }

    /** A human in the flee band runs away in a panic, unless a scientist trips. */
    method Scramble(h0: Human, dsq: real, env: Env) returns (h: Human, stop: bool)
      requires BandOf(h0, dsq) == Flee
      modifies this
      ensures Turn(Snapshot(), h) == Behave(old(Snapshot()), h0, dsq, env)
      ensures stop <==> h.state == Trip
    {
      h := h0.(state := Run, panic := true);
      var roll := env.dice(draws);
      draws := draws + 1;
      if roll < 0.003 && h.kind == Scientist {
        h := h.(state := Trip, stateTimer := 40.0 + env.dice(draws) * 40.0);
        draws := draws + 1;
        h := h.(velocity := Zero);
        return h, true;
      }
      var away := Heading(h.pos.Minus(monster.pos), env.sqrt);
      h := h.(velocity := away.Scale(h.speed));
      return h, false;
    }

    /** A human in the nervous band may start to shiver, and otherwise cowers. */
    method Hesitate(h0: Human, dsq: real, env: Env) returns (h: Human)
      requires BandOf(h0, dsq) == Nervous
      modifies this
      ensures Turn(Snapshot(), h) == Behave(old(Snapshot()), h0, dsq, env)
    {
      h := h0;
      var roll := env.dice(draws);
      draws := draws + 1;
      if roll < 0.05 {
        h := h.(state := Shiver, velocity := Zero);
      } else if h.state != Shiver {
        h := h.(state := Cower);
      }
    }

    /** A calm human idles, and may set off in a random direction or stop. */
    method Wander(h0: Human, dsq: real, env: Env) returns (h: Human)
      requires BandOf(h0, dsq) == Calm
      modifies this
      ensures Turn(Snapshot(), h) == Behave(old(Snapshot()), h0, dsq, env)
    {
      h := h0.(state := Idle);
      var roll := env.dice(draws);
      draws := draws + 1;
      if roll < 0.02 {
        var turn := env.spin(draws);
        draws := draws + 1;
        h := h.(velocity := turn.Scale(0.5));
      } else {
        var again := env.dice(draws);
        draws := draws + 1;
        if again < 0.02 {
          h := h.(velocity := Zero);
        }
      }
    }

    /** The wall loop of a human: one push-back per wall, in order. */
    method ShoveHuman(p0: Vec, radius: real, sqrt: real -> real) returns (p: Vec)
      ensures p == Shove(p0, radius, walls, sqrt)
    {
      p := p0;
      for j := 0 to |walls|
        invariant p == Shove(p0, radius, walls[..j], sqrt)
      {
        assert Front(walls[..j + 1]) == walls[..j];
        p := PushOne(p, radius, walls[j].Box(), sqrt);
      }
      assert walls[..|walls|] == walls;
    }

    /** The callback of the human pass on one human. */
    method VisitHuman(h0: Human, env: Env) returns (kept: Option<Human>)
      modifies this
      ensures Stepped(Snapshot(), kept) == HumanStep(old(Snapshot()), h0, env)
    {
      var dsq := DistSq(monster.pos, h0.pos);
      if Within(dsq, monster.radius + h0.radius + 15.0) {
        Devour(h0, env);
        return None;
      }
      if h0.state == Trip {
        var h := h0.(stateTimer := h0.stateTimer - 1.0);
        if h.stateTimer <= 0.0 {
          h := h.(state := Run, panic := true);
        }
        return Some(h);
      }
      var h := Act(h0, dsq, env);
      return Some(h);
    }

    /** A human that is neither caught nor tripped: combat, behaviour, then (unless it
        just tripped) its step and the push-back out of every wall. */
    method Act(h0: Human, dsq: real, env: Env) returns (h: Human)
      requires h0.state != Trip && dsq == DistSq(monster.pos, h0.pos)
      modifies this
      ensures var f := Fire(old(Snapshot()), h0, dsq, env);
        var b := Behave(f.world, f.human, dsq, env);
        Snapshot() == b.world &&
        h == if b.human.state == Trip then b.human else Walk(b.human, old(walls), env.sqrt)
    {
      ghost var w := Snapshot();
      ghost var f := Fire(w, h0, dsq, env);
      FireCases(w, h0, dsq, env);
      h := Combat(h0, dsq, env);
      assert f == Turn(Snapshot(), h);
      ghost var b := Behave(f.world, f.human, dsq, env);
      BehaveCases(f.world, f.human, dsq, env);
      var stop;
      h, stop := Decide(h, dsq, env);
      assert b == Turn(Snapshot(), h);
      if stop {
        return;
      }
      var p := ShoveHuman(h.pos.Plus(h.velocity), h.radius, env.sqrt);
      h := h.(pos := p);
    }

    /** The human pass. */
    method UpdateHumans(env: Env)
      modifies this
      ensures Snapshot() == HumanPass(old(Snapshot()), env)
    {
      var xs := humans;
      ghost var w0 := Snapshot();
      var kept: seq<Human> := [];
      for i := 0 to |xs|
        invariant humans == xs
        invariant Pass(Snapshot(), kept) == FilterFold(xs[..i], w0, HumanStepper(env))
      {
        HumanStepCases(Snapshot(), xs[i], env);
        var keep := VisitHuman(xs[i], env);
        FilterFoldNext(xs, i, w0, HumanStepper(env));
        if keep.Some? {
          kept := kept + [keep.value];
        }
      }
      assert xs[..|xs|] == xs;
      humans := kept;
    }

    /** The particle pass. */
    method UpdateParticles()
      modifies this
      ensures Snapshot() == Fade(old(Snapshot()))
    {
      var xs := particles;
      var kept: seq<Particle> := [];
      for i := 0 to |xs|
        invariant kept == Decay(xs[..i])
      {
        var p := xs[i];
        p := p.(x := p.x + p.vx, y := p.y + p.vy, z := p.z + p.vz, vz := p.vz - 0.8);
        if p.z <= 0.0 {
          p := p.(z := 0.0, vz := p.vz * -0.5, vx := p.vx * 0.8, vy := p.vy * 0.8);
        }
        p := p.(life := p.life - 0.02);
        assert p == Tick(xs[i]);
        assert Front(xs[..i + 1]) == xs[..i];
        if p.life > 0.0 {
          kept := kept + [p];
        }
      }
      assert xs[..|xs|] == xs;
      particles := kept;
    }

    /** `update`: one frame, which keeps a sound world sound. */
    method Update(input: Input, env: Env)
      modifies this
      ensures Snapshot() == Step(old(Snapshot()), input, env)
      ensures old(Sound(Snapshot())) ==> Sound(Snapshot())
    {
      ghost var w := Snapshot();
      if state != Playing {
        return;
      }
      draws := 0;
      MoveMonster(input, env);
      UpdateWalls(env);
      UpdateProps(env);
      UpdateProjectiles(env);
      UpdateHumans(env);
      UpdateParticles();
      if Escaped(monster) {
        state := Victory;
      }
      if Sound(w) {
        StepSound(w, input, env);
      }
    }
  }
}
