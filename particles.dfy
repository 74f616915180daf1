/** `createParticles` (GameCanvas.tsx:210-221) and the particle pass of `update`
    (GameCanvas.tsx:488-493). */
module Particles {
  import opened Geometry
  import opened Lists
  import opened Entities
  import opened State

  /** Draws consumed per particle: angle, speed, id, z offset, vz, size. */
  const DrawsPerParticle: nat := 6

  /** The particle built from draws k .. k+5. */
  function Shard(x: real, y: real, z: real, color: Color, mult: real, env: Env, k: nat): (p: Particle)
    ensures p.x == x && p.y == y && p.color == color
    ensures p.life == 1.0 && p.maxLife == 1.0
  {
    var dir := env.spin(k);
    var speed := (env.dice(k + 1) * 4.0 + 2.0) * mult;
    Particle(x, y, z + env.dice(k + 3) * 20.0, dir.x * speed, dir.y * speed,
             env.dice(k + 4) * 8.0 + 4.0, 1.0, 1.0, color, env.dice(k + 5) * 4.0 + 2.0)
  }

  /** The `count` particles one `createParticles` call appends, drawing from index `k` on. */
  function Spray(x: real, y: real, z: real, color: Color, count: nat, mult: real, env: Env, k: nat): (ps: seq<Particle>)
    ensures |ps| == count
    ensures forall j :: 0 <= j < count ==>
      ps[j].x == x && ps[j].y == y && ps[j].color == color && ps[j].life == 1.0 && ps[j].maxLife == 1.0
  {
    seq(count, j requires 0 <= j < count => Shard(x, y, z, color, mult, env, k + DrawsPerParticle * j))
  }

  /** One more round of the `createParticles` loop appends the particle built from the
      next six draws. */
  lemma SprayGrows(x: real, y: real, z: real, color: Color, n: nat, mult: real, env: Env, k: nat)
    ensures Spray(x, y, z, color, n + 1, mult, env, k) ==
      Spray(x, y, z, color, n, mult, env, k) + [Shard(x, y, z, color, mult, env, k + DrawsPerParticle * n)]
  {
    var longer := Spray(x, y, z, color, n + 1, mult, env, k);
    var shorter := Spray(x, y, z, color, n, mult, env, k);
    assert forall j :: 0 <= j < n ==> longer[j] == shorter[j];
  }

  /** The world after `createParticles(x, y, z, color, count, mult)`. */
  function Burst(w: World, x: real, y: real, z: real, color: Color, count: nat, mult: real, env: Env): World
  {
    w.(particles := w.particles + Spray(x, y, z, color, count, mult, env, w.draws),
       draws := w.draws + DrawsPerParticle * count)
  }

  /** `createParticles` appends `count` fresh particles at (x, y) in `color`, keeps the
      earlier ones, takes six draws per particle and changes nothing else. */
  lemma BurstAppends(w: World, x: real, y: real, z: real, color: Color, count: nat, mult: real, env: Env)
    ensures var r := Burst(w, x, y, z, color, count, mult, env);
      |r.particles| == |w.particles| + count &&
      r.particles[..|w.particles|] == w.particles &&
      (forall j :: |w.particles| <= j < |r.particles| ==>
        r.particles[j].x == x && r.particles[j].y == y && r.particles[j].color == color && r.particles[j].life == 1.0) &&
      r.draws == w.draws + DrawsPerParticle * count &&
      r.(particles := w.particles, draws := w.draws) == w
  {
  }

  /** One frame of a particle's flight: move, fall, bounce on the floor, fade. */
  function Tick(p: Particle): (q: Particle)
    ensures q.z >= 0.0
    ensures q.life == p.life - 0.02
    ensures q.color == p.color && q.size == p.size && q.maxLife == p.maxLife
  {
    var moved := p.(x := p.x + p.vx, y := p.y + p.vy, z := p.z + p.vz, vz := p.vz - 0.8);
    var landed :=
      if moved.z <= 0.0 then moved.(z := 0.0, vz := moved.vz * -0.5, vx := moved.vx * 0.8, vy := moved.vy * 0.8)
      else moved;
    landed.(life := landed.life - 0.02)
  }

  /** The particle pass: every particle ticks, and those still alive are kept in order. */
  function Decay(ps: seq<Particle>): (r: seq<Particle>)
    ensures |r| <= |ps|
    ensures forall j :: 0 <= j < |r| ==> r[j].life > 0.0 && r[j].z >= 0.0
  {
    if ps == [] then []
    else
      var q := Tick(Last(ps));
      Decay(Front(ps)) + (if q.life > 0.0 then [q] else [])
  }

  /** `q` is what one frame makes of `p`. */
  predicate TickedFrom(q: Particle, p: Particle)
  {
    q == Tick(p)
  }

  /** `p` is still alive after its next frame. */
  predicate Survives(p: Particle)
  {
    Tick(p).life > 0.0
  }

  /** The pass keeps the ticked particles, in order. */
  lemma {:induction false} DecayKeepsOrder(ps: seq<Particle>)
    ensures Embeds(Decay(ps), ps, TickedFrom)
  {
    if ps != [] {
      DecayKeepsOrder(Front(ps));
      var q := Tick(Last(ps));
      assert Front(ps) + [Last(ps)] == ps;
      if q.life > 0.0 {
        assert Decay(ps) == Decay(Front(ps)) + [q];
        EmbedsKeep(Decay(Front(ps)), Front(ps), q, Last(ps), TickedFrom);
      } else {
        assert Decay(ps) == Decay(Front(ps));
        EmbedsSkip(Decay(Front(ps)), Front(ps), Last(ps), TickedFrom);
      }
    }
  }

  /** The pass keeps exactly as many particles as survive their frame. */
  lemma {:induction false} DecayCountsSurvivors(ps: seq<Particle>)
    ensures |Decay(ps)| == Count(ps, Survives)
  {
    if ps != [] {
      DecayCountsSurvivors(Front(ps));
    }
  }

  /** A freshly spawned particle (life 1.0) lives through 49 passes and is dropped by the 50th. */
  lemma FreshParticleLastsFiftyFrames(p: Particle)
    requires p.life == 1.0
    ensures Ticks(p, 49).life > 0.0
    ensures Ticks(p, 50).life <= 0.0
  {
    TicksFade(p, 49);
    TicksFade(p, 50);
  }

  /** `n` passes applied to one particle, ignoring removal. */
  function Ticks(p: Particle, n: nat): Particle
  {
    if n == 0 then p else Tick(Ticks(p, n - 1))
  }

  lemma {:induction false} TicksFade(p: Particle, n: nat)
    ensures Ticks(p, n).life == p.life - 0.02 * (n as real)
  {
    if n > 0 {
      TicksFade(p, n - 1);
    }
  }
}
