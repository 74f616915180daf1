/** The prop pass of `update` (GameCanvas.tsx:301-314): every prop the monster touches
    is smashed into a spray of sparks (servers) or cryo liquid (tanks) and removed. */
module PropPhase {
  import opened Geometry
  import opened Lists
  import opened Entities
  import opened State
  import opened Particles

  /** The monster's circle overlaps the prop. */
  predicate Smashes(m: Monster, prop: Prop)
  {
    Overlaps(m.pos, m.radius, prop.Box())
  }

  /** The colour a smashed prop sprays. */
  function Splash(kind: PropKind): Color
  {
    if kind == Server then Spark else CryoLiquid
  }

  /** Particles sprayed per smashed prop. */
  const Debris: nat := 12

  /** The `filter` callback on one prop. */
  function PropStep(w: World, prop: Prop, env: Env): Stepped<Prop>
  {
    if Smashes(w.monster, prop) then
      Stepped(Burst(w, prop.Box().Mid().x, prop.Box().Mid().y, 20.0, Splash(prop.kind), Debris, 1.5, env), None)
    else Stepped(w, Some(prop))
  }

  function PropStepper(env: Env): (World, Prop) -> Stepped<Prop>
  {
    (w: World, prop: Prop) => PropStep(w, prop, env)
  }

  function PropPass(w: World, env: Env): World
  {
    var p := FilterFold(w.props, w, PropStepper(env));
    p.world.(props := p.kept)
  }

  /** The props of `props` that monster `m` does not touch, in order. */
  function Untouched(m: Monster, props: seq<Prop>): seq<Prop>
  {
    if props == [] then []
    else Untouched(m, Front(props)) + (if Smashes(m, Last(props)) then [] else [Last(props)])
  }

  /** The callbacks over `xs` keep exactly the props the monster does not touch, in order,
      and change nothing but the particles they append, `Debris` per smashed prop, with
      the draws those take. */
  lemma {:induction false} PropFoldSound(xs: seq<Prop>, w0: World, env: Env)
    ensures var p := FilterFold(xs, w0, PropStepper(env));
      var smashed := |xs| - |p.kept|;
      p.kept == Untouched(w0.monster, xs) &&
      p.world.(particles := w0.particles, draws := w0.draws) == w0 &&
      |p.world.particles| == |w0.particles| + Debris * smashed &&
      p.world.particles[..|w0.particles|] == w0.particles &&
      p.world.draws == w0.draws + DrawsPerParticle * Debris * smashed
    decreases |xs|
  {
    if xs != [] {
      var p := FilterFold(Front(xs), w0, PropStepper(env));
      PropFoldSound(Front(xs), w0, env);
      var s := PropStep(p.world, Last(xs), env);
      assert FilterFold(xs, w0, PropStepper(env)) == Pass(s.world, p.kept + Elements(s.kept));
      if s.kept.None? {
        assert s.world.particles[..|p.world.particles|] == p.world.particles;
        assert s.world.particles[..|w0.particles|] == s.world.particles[..|p.world.particles|][..|w0.particles|];
      }
    }
  }

  /** The prop pass removes exactly the props the monster touches, keeping the rest in
      order, and appends `Debris` particles for each removed prop. */
  lemma PropPassSound(w: World, env: Env)
    ensures var r := PropPass(w, env);
      r.props == Untouched(w.monster, w.props) &&
      r.(props := w.props, particles := w.particles, draws := w.draws) == w &&
      |r.particles| == |w.particles| + Debris * (|w.props| - |r.props|)
  {
    PropFoldSound(w.props, w, env);
  }
}
