/** The wall pass of `update` (GameCanvas.tsx:268-299): a monster big enough damages
    the walls it touches and breaks those whose hit points run out; a smaller monster
    is pushed back out of them. */
module WallPhase {
  import opened Geometry
  import opened Lists
  import opened Entities
  import opened State
  import opened Particles

  /** The monster's circle overlaps the wall (distSq < radius²). */
  predicate Touches(m: Monster, wall: Wall)
  {
    Overlaps(m.pos, m.radius, wall.Box())
  }

  /** Every wall of `ws` has hit points left. */
  predicate Standing(ws: seq<Wall>)
  {
    forall j :: 0 <= j < |ws| ==> ws[j].hp > 0
  }

  /** A wall left with no hit points. */
  predicate Dead(wall: Wall)
  {
    wall.hp <= 0
  }

  /** The blow's roll: one draw, and above 0.8 three chips sprayed at `c`, the point of
      the wall nearest the monster. */
  function Chipped(w: World, c: Vec, env: Env): World
  {
    var rolled := w.(draws := w.draws + 1);
    if env.dice(w.draws) > 0.8 then Burst(rolled, c.x, c.y, 20.0, WallBroken, 3, 1.0, env) else rolled
  }

  /** A wall breaking: one more broken wall counted, and fifteen pieces of its base
      sprayed at its centre. */
  function Broken(w: World, wall: Wall, env: Env): World
  {
    var counted := w.(stats := w.stats.(wallsBroken := w.stats.wallsBroken + 1));
    Burst(counted, wall.Box().Mid().x, wall.Box().Mid().y, 0.0, WallBase, 15, 1.0, env)
  }

  /** The `filter` callback on one wall. */
  function WallStep(w: World, wall: Wall, env: Env): Stepped<Wall>
  {
    var m := w.monster;
    if wall.hp <= 0 then Stepped(w, None)
    else if !Touches(m, wall) then Stepped(w, Some(wall))
    else if m.radius >= wall.requiredSize then
      var hit := wall.(hp := wall.hp - m.damage);
      var sparked := Chipped(w, ClosestPoint(m.pos, wall.Box()), env);
      if hit.hp <= 0 then Stepped(Broken(sparked, wall, env), None)
      else Stepped(sparked, Some(hit))
    else
      Stepped(w.(monster := m.(pos := PushOne(m.pos, m.radius, wall.Box(), env.sqrt))), Some(wall))
  }

  function WallStepper(env: Env): (World, Wall) -> Stepped<Wall>
  {
    (w: World, wall: Wall) => WallStep(w, wall, env)
  }

  /** The whole pass: the callbacks run over the walls in order, and the list becomes the kept walls. */
  function WallPass(w: World, env: Env): World
  {
    var p := FilterFold(w.walls, w, WallStepper(env));
    p.world.(walls := p.kept)
  }

  /** `a` is what the pass keeps of `b`: `b` was alive, and `a` is `b` itself or
      `b` after one blow of `damage`. */
  function Worn(damage: int): (Wall, Wall) -> bool
  {
    (a: Wall, b: Wall) => b.hp > 0 && (a == b || a == b.(hp := b.hp - damage))
  }

  /** What the wall pass may change besides the wall list: the monster's position,
      the broken-walls count, and particles appended with the draws they take. */
  ghost predicate WallFrame(a: World, b: World)
  {
    b.state == a.state && b.monster.(pos := a.monster.pos) == a.monster && b.camera == a.camera &&
    b.walls == a.walls && b.humans == a.humans && b.props == a.props &&
    b.projectiles == a.projectiles && b.stats.humansEaten == a.stats.humansEaten &&
    |a.particles| <= |b.particles| && b.particles[..|a.particles|] == a.particles &&
    a.draws <= b.draws
  }

  /** One callback:
      - a wall with hp <= 0 is dropped and nothing else happens;
      - a wall the monster does not touch is kept unchanged and nothing else happens;
      - a wall touched by a monster at least its `requiredSize` loses exactly
        `monster.damage` hit points, and is dropped, counting one more broken wall,
        exactly when its hit points are now <= 0;
      - a wall touched by a smaller monster keeps its hit points, and only the
        monster's position changes. */
  lemma WallStepCases(w: World, wall: Wall, env: Env)
    ensures var s := WallStep(w, wall, env);
      WallFrame(w, s.world) &&
      (wall.hp <= 0 ==> s == Stepped(w, None)) &&
      (wall.hp > 0 && !Touches(w.monster, wall) ==> s == Stepped(w, Some(wall))) &&
      (wall.hp > 0 && Touches(w.monster, wall) && w.monster.radius >= wall.requiredSize ==>
        (s.kept.Some? <==> wall.hp - w.monster.damage > 0) &&
        (s.kept.Some? ==> s.kept.value == wall.(hp := wall.hp - w.monster.damage)) &&
        s.world.monster == w.monster &&
        s.world.stats.wallsBroken == w.stats.wallsBroken + (if s.kept.None? then 1 else 0)) &&
      (wall.hp > 0 && Touches(w.monster, wall) && w.monster.radius < wall.requiredSize ==>
        s.kept == Some(wall) && s.world == w.(monster := s.world.monster))
  {
  }

  lemma WallFrameTrans(a: World, b: World, c: World)
    requires WallFrame(a, b) && WallFrame(b, c)
    ensures WallFrame(a, c)
  {
    assert c.particles[..|a.particles|] == c.particles[..|b.particles|][..|a.particles|];
  }

  /** The callbacks over `xs` change only what `WallFrame` allows. */
  lemma {:induction false} WallFoldFrame(xs: seq<Wall>, w0: World, env: Env)
    ensures WallFrame(w0, FilterFold(xs, w0, WallStepper(env)).world)
    decreases |xs|
  {
    if xs != [] {
      var p := FilterFold(Front(xs), w0, WallStepper(env));
      WallFoldFrame(Front(xs), w0, env);
      WallStepCases(p.world, Last(xs), env);
      WallFrameTrans(w0, p.world, WallStep(p.world, Last(xs), env).world);
    }
  }

  /** A kept wall is the visited wall, alive, unchanged or worn by one blow of the
      monster's damage, which the callback does not change. */
  lemma WallStepWorn(w: World, wall: Wall, env: Env)
    ensures var s := WallStep(w, wall, env);
      s.world.monster.damage == w.monster.damage &&
      (s.kept.Some? ==> Worn(w.monster.damage)(s.kept.value, wall))
  {
  }

  /** The callbacks over `xs` keep, in order, only walls that were alive, each unchanged
      or worn by one blow. */
  lemma {:induction false} WallFoldKept(xs: seq<Wall>, w0: World, env: Env)
    ensures Embeds(FilterFold(xs, w0, WallStepper(env)).kept, xs, Worn(w0.monster.damage))
    ensures FilterFold(xs, w0, WallStepper(env)).world.monster.damage == w0.monster.damage
    decreases |xs|
  {
    if xs != [] {
      var p := FilterFold(Front(xs), w0, WallStepper(env));
      WallFoldKept(Front(xs), w0, env);
      var x := Last(xs);
      var s := WallStep(p.world, x, env);
      WallStepWorn(p.world, x, env);
      FrontLast(xs);
      var kept := FilterFold(xs, w0, WallStepper(env)).kept;
      assert kept == p.kept + Elements(s.kept);
      if s.kept.Some? {
        EmbedsKeep(p.kept, Front(xs), s.kept.value, x, Worn(w0.monster.damage));
        assert kept == p.kept + [s.kept.value];
      } else {
        EmbedsSkip(p.kept, Front(xs), x, Worn(w0.monster.damage));
        assert kept == p.kept;
      }
    }
  }

  /** Every wall the callbacks over `xs` keep is alive. */
  lemma {:induction false} WallFoldAlive(xs: seq<Wall>, w0: World, env: Env)
    ensures Standing(FilterFold(xs, w0, WallStepper(env)).kept)
    decreases |xs|
  {
    if xs != [] {
      var p := FilterFold(Front(xs), w0, WallStepper(env));
      WallFoldAlive(Front(xs), w0, env);
      var s := WallStep(p.world, Last(xs), env);
      WallStepCases(p.world, Last(xs), env);
      var kept := FilterFold(xs, w0, WallStepper(env)).kept;
      assert kept == p.kept + Elements(s.kept);
      forall j | 0 <= j < |kept|
        ensures kept[j].hp > 0
      {
        if j < |p.kept| {
          assert kept[j] == p.kept[j];
        } else {
          assert s.kept.Some? && kept[j] == s.kept.value;
          assert s.kept.value.hp > 0;
        }
      }
    }
  }

  /** Every wall the callbacks see is kept, dropped for being dead already, or broken
      and counted. */
  lemma {:induction false} WallFoldTally(xs: seq<Wall>, w0: World, env: Env)
    ensures var p := FilterFold(xs, w0, WallStepper(env));
      p.world.stats.wallsBroken + |p.kept| + Count(xs, Dead) == w0.stats.wallsBroken + |xs|
    decreases |xs|
  {
    if xs != [] {
      var p := FilterFold(Front(xs), w0, WallStepper(env));
      WallFoldTally(Front(xs), w0, env);
      WallStepCases(p.world, Last(xs), env);
    }
  }

  /** The wall pass: the surviving walls are the live walls in their old order, each
      unchanged or worn by exactly one blow, and all alive; every wall that disappears
      was dead already or is counted as broken; and besides the walls it changes only
      the monster's position, the broken-walls count and the appended particles. */
  lemma WallPassSound(w: World, env: Env)
    ensures var r := WallPass(w, env);
      WallFrame(w, r.(walls := w.walls)) &&
      Embeds(r.walls, w.walls, Worn(w.monster.damage)) &&
      Standing(r.walls) &&
      r.stats.wallsBroken + |r.walls| + Count(w.walls, Dead) == w.stats.wallsBroken + |w.walls|
  {
    WallFoldFrame(w.walls, w, env);
    WallFoldKept(w.walls, w, env);
    WallFoldAlive(w.walls, w, env);
    WallFoldTally(w.walls, w, env);
  }
}
