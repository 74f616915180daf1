/** The human pass of `update` (GameCanvas.tsx:352-486): a human the monster reaches
    is eaten and makes it grow; every other human recovers from a trip, or shoots,
    picks a behaviour by its distance to the monster, walks, and is pushed out of the
    walls it runs into. */
module HumanPhase {
  import opened Geometry
  import opened Lists
  import opened Entities
  import opened State
  import opened Particles
  import opened Constants

  /** The eating distance: the two radii plus 15. */
  function Reach(m: Monster, h: Human): real
  {
    m.radius + h.radius + 15.0
  }

  /** The monster is close enough to eat `h`. */
  predicate Caught(m: Monster, h: Human)
  {
    Within(DistSq(m.pos, h.pos), Reach(m, h))
  }

  /** The monster after one meal: it grows, gains one experience point, and levels up
      when the experience reaches the threshold, which then becomes
      `Math.floor(threshold * 1.5)`. */
  function Grow(m: Monster): (r: Monster)
    ensures r.radius == m.radius + GROWTH_PER_HUMAN && r.exp == m.exp + 1
    ensures r.pos == m.pos && r.damage == m.damage
    ensures r.exp < m.nextLevelExp ==> r.level == m.level && r.nextLevelExp == m.nextLevelExp
    ensures r.exp >= m.nextLevelExp ==>
      r.level == m.level + 1 &&
      2 * r.nextLevelExp <= 3 * m.nextLevelExp < 2 * r.nextLevelExp + 2
  {
    var fed := m.(radius := m.radius + GROWTH_PER_HUMAN, visualHeight := m.visualHeight + 0.5, exp := m.exp + 1);
    if fed.exp >= fed.nextLevelExp then fed.(level := fed.level + 1, nextLevelExp := (fed.nextLevelExp * 3) / 2)
    else fed
  }

  /** The experience bookkeeping a fresh monster starts in: fewer points than the
      threshold, and a threshold of at least 2, so that 1.5 times it is larger. */
  predicate Leveling(m: Monster)
  {
    0 <= m.exp < m.nextLevelExp && 2 <= m.nextLevelExp
  }

  /** A meal keeps the experience below the threshold: reaching it raises the level
      and moves the threshold strictly up. */
  lemma GrowKeepsLeveling(m: Monster)
    requires Leveling(m)
    ensures Leveling(Grow(m))
    ensures Grow(m).nextLevelExp >= m.nextLevelExp
  {
  }

  /** The world after the monster eats `h`: 15 drops of blood at the human, one more
      human eaten, and a bigger monster. */
  function Eat(w: World, h: Human, env: Env): World
  {
    var splashed := Burst(w, h.pos.x, h.pos.y, 20.0, Blood, 15, 1.0, env);
    splashed.(stats := splashed.stats.(humansEaten := splashed.stats.humansEaten + 1), monster := Grow(w.monster))
  }

  /** One frame of a tripped human: the timer runs down by one, and at zero the
      human gets up running, still panicked. */
  function Recover(h: Human): (r: Human)
    ensures r.stateTimer == h.stateTimer - 1.0
    ensures r.stateTimer <= 0.0 ==> r.state == Run && r.panic
    ensures r.stateTimer > 0.0 ==> r.state == h.state && r.panic == h.panic
    ensures r.(state := h.state, panic := h.panic, stateTimer := h.stateTimer) == h
  {
    var waited := h.(stateTimer := h.stateTimer - 1.0);
    if waited.stateTimer <= 0.0 then waited.(state := Run, panic := true) else waited
  }

  /** The world and the human after one step of the human's turn. */
  datatype Turn = Turn(world: World, human: Human)

  /** The bullet a shooter fires along the unit direction `dir`. */
  function Shot(h: Human, dir: Vec): Projectile
  {
    Projectile(h.pos.x, h.pos.y, dir.x * PROJECTILE_SPEED, dir.y * PROJECTILE_SPEED,
               if h.kind == Elite then DAMAGE_ELITE else DAMAGE_SOLDIER,
               if h.kind == Elite then EliteTracer else Tracer)
  }

  /** Combat: a shooter that is not shivering counts its cooldown down, and fires at the
      monster when it is in range (`dsq` is the squared distance) and the cooldown has
      run out, aiming with a small random spread (one draw) and taking one more draw
      for the bullet's id. */
  function Fire(w: World, h: Human, dsq: real, env: Env): Turn
  {
    if !h.canShoot || h.state == Shiver then Turn(w, h)
    else
      var cooled := h.(attackCooldown := h.attackCooldown - 1.0);
      if Within(dsq, h.attackRange) && cooled.attackCooldown <= 0.0 then
        var dir := Rotate(Heading(w.monster.pos.Minus(h.pos), env.sqrt), env.tilt(w.draws));
        Turn(w.(projectiles := w.projectiles + [Shot(h, dir)], draws := w.draws + 2),
             cooled.(attackCooldown := h.maxCooldown))
      else Turn(w, cooled)
  }

  /** The behaviour a human picks from its distance to the monster. */
  datatype Band = Kite | Flee | Nervous | Calm

  /** The first matching case: a shooter closer than its range minus 150 backs off,
      anyone closer than 500 flees, closer than 700 is nervous, and further is calm. */
  function BandOf(h: Human, dsq: real): Band
  {
    if h.canShoot && Within(dsq, h.attackRange - 150.0) then Kite
    else if Within(dsq, 500.0) then Flee
    else if Within(dsq, 700.0) then Nervous
    else Calm
  }

  /** The behaviour decision. A fleeing scientist may trip (one draw below 0.003),
      stopping dead for 40 to 80 frames; a nervous human may start to shiver (one draw
      below 0.05); a calm human may set off in a random direction at 0.5 or stop (two
      draws below 0.02 each). */
  function Behave(w: World, h: Human, dsq: real, env: Env): Turn
  {
    var k := w.draws;
    var away := Heading(h.pos.Minus(w.monster.pos), env.sqrt);
    match BandOf(h, dsq)
    case Kite => Turn(w, h.(state := Run, velocity := away.Scale(h.speed * 0.6)))
    case Flee =>
      if env.dice(k) < 0.003 && h.kind == Scientist then
        Turn(w.(draws := k + 2), h.(state := Trip, panic := true, stateTimer := 40.0 + env.dice(k + 1) * 40.0, velocity := Zero))
      else Turn(w.(draws := k + 1), h.(state := Run, panic := true, velocity := away.Scale(h.speed)))
    case Nervous =>
      if env.dice(k) < 0.05 then Turn(w.(draws := k + 1), h.(state := Shiver, velocity := Zero))
      else Turn(w.(draws := k + 1), if h.state != Shiver then h.(state := Cower) else h)
    case Calm =>
      var idle := h.(state := Idle);
      Turn(w.(draws := k + 2),
           if env.dice(k) < 0.02 then idle.(velocity := env.spin(k + 1).Scale(0.5))
           else if env.dice(k + 1) < 0.02 then idle.(velocity := Zero)
           else idle)
  }

  /** The wall collision of a human of `radius` at `p`: one push-back per wall, in the
      order of `walls`, each starting where the previous one left the human. */
  function Shove(p: Vec, radius: real, walls: seq<Wall>, sqrt: real -> real): Vec
  {
    if walls == [] then p
    else PushOne(Shove(p, radius, Front(walls), sqrt), radius, Last(walls).Box(), sqrt)
  }

  /** One step along the velocity, then the wall collision. */
  function Walk(h: Human, walls: seq<Wall>, sqrt: real -> real): Human
  {
    h.(pos := Shove(h.pos.Plus(h.velocity), h.radius, walls, sqrt))
  }

  /** The `filter` callback on one human. */
  function HumanStep(w: World, h: Human, env: Env): Stepped<Human>
  {
    var dsq := DistSq(w.monster.pos, h.pos);
    if Within(dsq, Reach(w.monster, h)) then Stepped(Eat(w, h, env), None)
    else if h.state == Trip then Stepped(w, Some(Recover(h)))
    else
      var f := Fire(w, h, dsq, env);
      var b := Behave(f.world, f.human, dsq, env);
      Stepped(b.world, Some(if b.human.state == Trip then b.human else Walk(b.human, w.walls, env.sqrt)))
  }

  function HumanStepper(env: Env): (World, Human) -> Stepped<Human>
  {
    (w: World, h: Human) => HumanStep(w, h, env)
  }

  function HumanPass(w: World, env: Env): World
  {
    var p := FilterFold(w.humans, w, HumanStepper(env));
    p.world.(humans := p.kept)
  }

  // ----- Properties of one callback -----

  /** With a true `Math.hypot`, the bands are decided by the distance itself, first match
      first: the thresholds are the shooter's range minus 150, 500 and 700. */
  lemma BandFirstMatch(h: Human, dsq: real, dist: real)
    requires IsRootOf(dist, dsq)
    ensures BandOf(h, dsq) == Kite <==> h.canShoot && dist < h.attackRange - 150.0
    ensures BandOf(h, dsq) == Flee <==> !(h.canShoot && dist < h.attackRange - 150.0) && dist < 500.0
    ensures BandOf(h, dsq) == Nervous <==> !(h.canShoot && dist < h.attackRange - 150.0) && 500.0 <= dist < 700.0
    ensures BandOf(h, dsq) == Calm <==> !(h.canShoot && dist < h.attackRange - 150.0) && 700.0 <= dist
  {
    WithinIsDistanceTest(dsq, dist, h.attackRange - 150.0);
    WithinIsDistanceTest(dsq, dist, 500.0);
    WithinIsDistanceTest(dsq, dist, 700.0);
  }

  /** With a true `Math.hypot`, a human is eaten exactly when its distance to the
      monster is below the two radii plus 15. */
  lemma CaughtIsDistanceTest(m: Monster, h: Human, dist: real)
    requires IsRootOf(dist, DistSq(m.pos, h.pos))
    ensures Caught(m, h) <==> dist < m.radius + h.radius + 15.0
  {
    WithinIsDistanceTest(DistSq(m.pos, h.pos), dist, Reach(m, h));
  }

  /** Combat: only a shooter that is not shivering is affected; it fires exactly when
      the monster is in range and its cooldown, counted down by one, has run out; a shot
      appends one bullet at the shooter with the damage and colour of its kind, costs
      two draws and resets the cooldown; otherwise the cooldown is just one lower.
      Nothing else about the world or the human changes. */
  lemma FireCases(w: World, h: Human, dsq: real, env: Env)
    ensures var t := Fire(w, h, dsq, env);
      var armed := h.canShoot && h.state != Shiver;
      var fires := armed && Within(dsq, h.attackRange) && h.attackCooldown - 1.0 <= 0.0;
      t.human.(attackCooldown := h.attackCooldown) == h &&
      (!armed ==> t == Turn(w, h)) &&
      (armed && !fires ==> t == Turn(w, h.(attackCooldown := h.attackCooldown - 1.0))) &&
      (fires ==>
        t.human.attackCooldown == h.maxCooldown &&
        t.world.(projectiles := w.projectiles, draws := w.draws) == w &&
        t.world.draws == w.draws + 2 &&
        |t.world.projectiles| == |w.projectiles| + 1 &&
        t.world.projectiles[..|w.projectiles|] == w.projectiles &&
        var b := t.world.projectiles[|w.projectiles|];
        b.At() == h.pos &&
        (b.damage == DAMAGE_ELITE <==> h.kind == Elite) &&
        (b.damage == DAMAGE_SOLDIER <==> h.kind != Elite))
  {
  }

  /** With a true square root and a spread that is a true (cos, sin) pair, every
      bullet flies at PROJECTILE_SPEED. */
  lemma ShotSpeed(h: Human, aim: Vec, tilt: Vec, sqrt: real -> real)
    requires IsRootOf(sqrt(aim.NormSq()), aim.NormSq()) && aim != Zero
    requires tilt.NormSq() == 1.0
    ensures var b := Shot(h, Rotate(Heading(aim, sqrt), tilt));
      Vec(b.vx, b.vy).NormSq() == Mul(PROJECTILE_SPEED, PROJECTILE_SPEED)
  {
    var dir := Rotate(Heading(aim, sqrt), tilt);
    HeadingIsUnit(aim, sqrt);
    RotateKeepsLength(Heading(aim, sqrt), tilt);
    assert dir.NormSq() == 1.0;
    var b := Shot(h, dir);
    assert Vec(b.vx, b.vy) == dir.Scale(PROJECTILE_SPEED);
    ScaledNormSqOne(dir, PROJECTILE_SPEED);
  }

  /** Scaling a unit vector by `k` gives squared length k². */
  lemma ScaledNormSqOne(v: Vec, k: real)
    requires v.NormSq() == 1.0
    ensures v.Scale(k).NormSq() == Mul(k, k)
  {
    SquareOfProduct(v.x, k);
    SquareOfProduct(v.y, k);
    MulDist(Mul(v.x, v.x), Mul(v.y, v.y), Mul(k, k));
  }

  /** The behaviour decision, case by case: the state each band leads to, the draws it
      takes, and that only the human's state, velocity, panic and trip timer change. */
  lemma BehaveCases(w: World, h: Human, dsq: real, env: Env)
    ensures var t := Behave(w, h, dsq, env);
      var k := w.draws;
      t.world == w.(draws := t.world.draws) &&
      t.human.(state := h.state, velocity := h.velocity, panic := h.panic, stateTimer := h.stateTimer) == h &&
      (BandOf(h, dsq) == Kite ==> t.world.draws == k && t.human.state == Run) &&
      (BandOf(h, dsq) == Flee ==>
        t.human.panic &&
        (t.human.state == Trip <==> env.dice(k) < 0.003 && h.kind == Scientist) &&
        (t.human.state == Trip ==>
          t.human.velocity == Zero && t.world.draws == k + 2 &&
          t.human.stateTimer == 40.0 + env.dice(k + 1) * 40.0) &&
        (t.human.state != Trip ==> t.human.state == Run && t.world.draws == k + 1)) &&
      (BandOf(h, dsq) == Nervous ==>
        t.world.draws == k + 1 &&
        (env.dice(k) < 0.05 ==> t.human.state == Shiver && t.human.velocity == Zero) &&
        (env.dice(k) >= 0.05 ==>
          t.human.velocity == h.velocity &&
          t.human.state == (if h.state == Shiver then Shiver else Cower))) &&
      (BandOf(h, dsq) == Calm ==>
        t.world.draws == k + 2 && t.human.state == Idle &&
        (env.dice(k) < 0.02 ==> t.human.velocity == env.spin(k + 1).Scale(0.5)) &&
        (env.dice(k) >= 0.02 && env.dice(k + 1) < 0.02 ==> t.human.velocity == Zero) &&
        (env.dice(k) >= 0.02 && env.dice(k + 1) >= 0.02 ==> t.human.velocity == h.velocity)) &&
      (BandOf(h, dsq) != Flee ==> t.human.state != Trip)
  {
  }

  /** A kiting or fleeing human that runs heads straight away from the monster: with a
      true square root and the human off the monster's centre, its velocity has length
      0.6·speed when kiting and the full speed when fleeing, and is that length times the
      unit vector from the monster to the human. */
  lemma RunsAway(w: World, h: Human, dsq: real, env: Env)
    requires BandOf(h, dsq) == Kite || BandOf(h, dsq) == Flee
    requires h.pos.Minus(w.monster.pos) != Zero
    requires IsRootOf(env.sqrt(h.pos.Minus(w.monster.pos).NormSq()), h.pos.Minus(w.monster.pos).NormSq())
    ensures var t := Behave(w, h, dsq, env);
      var v := h.pos.Minus(w.monster.pos);
      var pace := if BandOf(h, dsq) == Kite then h.speed * 0.6 else h.speed;
      t.human.state == Run ==>
        t.human.velocity.NormSq() == Mul(pace, pace) &&
        t.human.velocity.Scale(env.sqrt(v.NormSq())) == v.Scale(pace)
  {
    var t := Behave(w, h, dsq, env);
    var v := h.pos.Minus(w.monster.pos);
    var len := env.sqrt(v.NormSq());
    var pace := if BandOf(h, dsq) == Kite then h.speed * 0.6 else h.speed;
    if t.human.state == Run {
      var u := Heading(v, env.sqrt);
      assert t.human.velocity == u.Scale(pace);
      HeadingIsUnit(v, env.sqrt);
      ScaledNormSqOne(u, pace);
      ScaleSwap(u, pace, len);
    }
  }

  /** Scaling by `a` then `b` is scaling by `b` then `a`. */
  lemma ScaleSwap(u: Vec, a: real, b: real)
    ensures u.Scale(a).Scale(b) == u.Scale(b).Scale(a)
  {
    MulAssoc(u.x, a, b);
    MulAssoc(u.x, b, a);
    MulComm(a, b);
    MulAssoc(u.y, a, b);
    MulAssoc(u.y, b, a);
  }

  /** A calm human that starts to wander, given a true (cos, sin) pair for its angle,
      walks at 0.5 per frame. */
  lemma Wanders(w: World, h: Human, dsq: real, env: Env)
    requires BandOf(h, dsq) == Calm && env.dice(w.draws) < 0.02
    requires env.spin(w.draws + 1).NormSq() == 1.0
    ensures Behave(w, h, dsq, env).human.velocity.NormSq() == Mul(0.5, 0.5)
  {
    ScaledNormSqOne(env.spin(w.draws + 1), 0.5);
  }

  /** A human whose circle overlaps no wall keeps its position through the wall collision. */
  lemma {:induction false} ShoveStill(p: Vec, radius: real, walls: seq<Wall>, sqrt: real -> real)
    requires forall j :: 0 <= j < |walls| ==> !Overlaps(p, radius, walls[j].Box())
    ensures Shove(p, radius, walls, sqrt) == p
  {
    if walls != [] {
      ShoveStill(p, radius, Front(walls), sqrt);
      assert !Overlaps(p, radius, walls[|walls| - 1].Box());
    }
  }

  /** What one callback may change: the monster's size and experience, the eaten count,
      appended bullets and particles, and the draws; never the walls, props, camera,
      game state, the monster's position or damage, or the broken-walls count. */
  ghost predicate HumanFrame(a: World, b: World)
  {
    b.state == a.state && b.camera == a.camera && b.walls == a.walls && b.humans == a.humans &&
    b.props == a.props && b.stats.wallsBroken == a.stats.wallsBroken &&
    b.monster.pos == a.monster.pos && b.monster.damage == a.monster.damage &&
    |a.projectiles| <= |b.projectiles| && b.projectiles[..|a.projectiles|] == a.projectiles &&
    |a.particles| <= |b.particles| && b.particles[..|a.particles|] == a.particles &&
    a.draws <= b.draws
  }

  lemma HumanFrameTrans(a: World, b: World, c: World)
    requires HumanFrame(a, b) && HumanFrame(b, c)
    ensures HumanFrame(a, c)
  {
    assert c.projectiles[..|a.projectiles|] == c.projectiles[..|b.projectiles|][..|a.projectiles|];
    assert c.particles[..|a.particles|] == c.particles[..|b.particles|][..|a.particles|];
  }

  /** A kept human is the same person: only its position, velocity, state, timer,
      panic and cooldown may differ. */
  predicate SamePerson(a: Human, b: Human)
  {
    a.(pos := b.pos, velocity := b.velocity, state := b.state, stateTimer := b.stateTimer,
       panic := b.panic, attackCooldown := b.attackCooldown) == b
  }

  /** One callback: the human is eaten (dropped) exactly when the monster reaches it; a
      meal grows the monster by `Grow` and counts one more eaten human; a human that is
      not eaten leaves the monster and the counts alone and is kept as the same person,
      and a tripped one only recovers. */
  lemma HumanStepCases(w: World, h: Human, env: Env)
    ensures var s := HumanStep(w, h, env);
      HumanFrame(w, s.world) &&
      (s.kept.None? <==> Caught(w.monster, h)) &&
      (s.kept.None? ==> s.world.monster == Grow(w.monster) &&
                        s.world.stats.humansEaten == w.stats.humansEaten + 1) &&
      (s.kept.Some? ==> s.world.monster == w.monster && s.world.stats == w.stats &&
                        SamePerson(s.kept.value, h)) &&
      (s.kept.Some? && h.state == Trip ==> s == Stepped(w, Some(Recover(h))))
  {
    var dsq := DistSq(w.monster.pos, h.pos);
    if !Caught(w.monster, h) && h.state != Trip {
      var f := Fire(w, h, dsq, env);
      FireCases(w, h, dsq, env);
      BehaveCases(f.world, f.human, dsq, env);
      assert f.world.projectiles[..|w.projectiles|] == w.projectiles;
    }
  }

  /** A tripped or shivering human stands still. */
  predicate Still(h: Human)
  {
    (h.state == Trip || h.state == Shiver) ==> h.velocity == Zero
  }

  predicate AllStill(hs: seq<Human>)
  {
    forall j :: 0 <= j < |hs| ==> Still(hs[j])
  }

  /** One callback keeps `Still`: tripping and starting to shiver stop the human, a
      human that keeps shivering was already stopped, and recovering keeps the velocity. */
  lemma HumanStepStill(w: World, h: Human, env: Env)
    requires Still(h)
    ensures var s := HumanStep(w, h, env);
      s.kept.Some? ==> Still(s.kept.value)
  {
    var dsq := DistSq(w.monster.pos, h.pos);
    if !Caught(w.monster, h) && h.state != Trip {
      var f := Fire(w, h, dsq, env);
      FireCases(w, h, dsq, env);
      BehaveCases(f.world, f.human, dsq, env);
    }
  }

  // ----- Properties of the whole pass -----

  /** The callbacks over `xs` change only what `HumanFrame` allows. */
  lemma {:induction false} HumanFoldFrame(xs: seq<Human>, w0: World, env: Env)
    ensures HumanFrame(w0, FilterFold(xs, w0, HumanStepper(env)).world)
    decreases |xs|
  {
    if xs != [] {
      var p := FilterFold(Front(xs), w0, HumanStepper(env));
      HumanFoldFrame(Front(xs), w0, env);
      HumanStepCases(p.world, Last(xs), env);
      HumanFrameTrans(w0, p.world, HumanStep(p.world, Last(xs), env).world);
    }
  }

  /** The callbacks over `xs` keep, in order, the same persons, and every human that
      disappears is counted as eaten, with the monster 2.5 bigger and one experience
      point richer per meal. */
  lemma {:induction false} HumanFoldMeals(xs: seq<Human>, w0: World, env: Env)
    ensures var p := FilterFold(xs, w0, HumanStepper(env));
      var eaten := p.world.stats.humansEaten - w0.stats.humansEaten;
      eaten + |p.kept| == |xs| &&
      p.world.monster.radius == w0.monster.radius + GROWTH_PER_HUMAN * (eaten as real) &&
      p.world.monster.exp == w0.monster.exp + eaten
    decreases |xs|
  {
    if xs != [] {
      var p := FilterFold(Front(xs), w0, HumanStepper(env));
      HumanFoldMeals(Front(xs), w0, env);
      HumanStepCases(p.world, Last(xs), env);
    }
  }

  /** The callbacks over `xs` keep, in order, only the same persons. */
  lemma {:induction false} HumanFoldKept(xs: seq<Human>, w0: World, env: Env)
    ensures Embeds(FilterFold(xs, w0, HumanStepper(env)).kept, xs, SamePerson)
    decreases |xs|
  {
    if xs != [] {
      var p := FilterFold(Front(xs), w0, HumanStepper(env));
      HumanFoldKept(Front(xs), w0, env);
      var x := Last(xs);
      var s := HumanStep(p.world, x, env);
      HumanStepCases(p.world, x, env);
      FrontLast(xs);
      var kept := FilterFold(xs, w0, HumanStepper(env)).kept;
      assert kept == p.kept + Elements(s.kept);
      if s.kept.Some? {
        EmbedsKeep(p.kept, Front(xs), s.kept.value, x, SamePerson);
        assert kept == p.kept + [s.kept.value];
      } else {
        EmbedsSkip(p.kept, Front(xs), x, SamePerson);
        assert kept == p.kept;
      }
    }
  }

  /** The callbacks over `xs` keep `Still` for every human they keep. */
  lemma {:induction false} HumanFoldStill(xs: seq<Human>, w0: World, env: Env)
    requires AllStill(xs)
    ensures AllStill(FilterFold(xs, w0, HumanStepper(env)).kept)
    decreases |xs|
  {
    if xs != [] {
      var p := FilterFold(Front(xs), w0, HumanStepper(env));
      assert AllStill(Front(xs)) by {
        forall j | 0 <= j < |Front(xs)| ensures Still(Front(xs)[j]) {
          assert Front(xs)[j] == xs[j];
        }
      }
      HumanFoldStill(Front(xs), w0, env);
      var x := Last(xs);
      var s := HumanStep(p.world, x, env);
      HumanStepStill(p.world, x, env);
      var kept := FilterFold(xs, w0, HumanStepper(env)).kept;
      assert kept == p.kept + Elements(s.kept);
    }
  }

  /** The experience bookkeeping survives any number of meals. */
  lemma {:induction false} HumanFoldLeveling(xs: seq<Human>, w0: World, env: Env)
    requires Leveling(w0.monster)
    ensures Leveling(FilterFold(xs, w0, HumanStepper(env)).world.monster)
    decreases |xs|
  {
    if xs != [] {
      var p := FilterFold(Front(xs), w0, HumanStepper(env));
      HumanFoldLeveling(Front(xs), w0, env);
      HumanStepCases(p.world, Last(xs), env);
      GrowKeepsLeveling(p.world.monster);
    }
  }

  /** The human pass: the remaining humans are the same persons in their old order;
      every missing human is counted as eaten, and each meal made the monster 2.5
      bigger and gave it one experience point; the walls, props, camera, game state and
      the monster's position never change; bullets and particles are only appended;
      and tripped or shivering humans stay still. */
  lemma HumanPassSound(w: World, env: Env)
    ensures var r := HumanPass(w, env);
      var eaten := r.stats.humansEaten - w.stats.humansEaten;
      HumanFrame(w, r.(humans := w.humans)) &&
      Embeds(r.humans, w.humans, SamePerson) &&
      eaten + |r.humans| == |w.humans| &&
      r.monster.radius == w.monster.radius + GROWTH_PER_HUMAN * (eaten as real) &&
      r.monster.exp == w.monster.exp + eaten &&
      (Leveling(w.monster) ==> Leveling(r.monster)) &&
      (AllStill(w.humans) ==> AllStill(r.humans))
  {
    HumanFoldFrame(w.humans, w, env);
    HumanFoldMeals(w.humans, w, env);
    HumanFoldKept(w.humans, w, env);
    if Leveling(w.monster) {
      HumanFoldLeveling(w.humans, w, env);
    }
    if AllStill(w.humans) {
      HumanFoldStill(w.humans, w, env);
    }
  }
}
