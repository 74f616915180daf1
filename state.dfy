/** The state of GameCanvas.tsx that one `update` call reads and writes, as a value,
    and the generic shape of the `filter` passes that rebuild each entity list. */
module State {
  import opened Geometry
  import opened Lists
  import opened Entities

  /** `statsRef` (the narration bookkeeping is disabled in the source and left out). */
  datatype Stats = Stats(humansEaten: int, wallsBroken: int)

  /** What the player holds during a frame: the lower-cased pressed keys and the
      on-screen joystick vector. */
  datatype Input = Input(keys: set<string>, joystick: Vec)

  /** What the host supplies during one frame or one world generation:
      `dice(k)` is the k-th result of `Math.random()` in that call,
      `spin(k)` is (cos a, sin a) for the random angle a = dice(k)·2π,
      `tilt(k)` is (cos s, sin s) for the aiming spread s = (dice(k) − 0.5)·0.1,
      `sqrt` is `Math.sqrt`, and `view` is (window.innerWidth, window.innerHeight). */
  datatype Env = Env(dice: nat -> real, spin: nat -> Vec, tilt: nat -> Vec, sqrt: real -> real, view: Vec)

  /** Everything `update` reads or writes. `draws` counts the results of
      `Math.random()` this frame has consumed so far. */
  datatype World = World(
    state: GameState,
    monster: Monster,
    camera: Vec,
    walls: seq<Wall>,
    humans: seq<Human>,
    props: seq<Prop>,
    projectiles: seq<Projectile>,
    particles: seq<Particle>,
    stats: Stats,
    draws: nat)

  /** The world after a `filter` pass and the elements the pass kept. */
  datatype Pass<T> = Pass(world: World, kept: seq<T>)

  /** The world after the `filter` callback ran on one element, and that element
      as it is kept (`return true`) or `None` (`return false`). */
  datatype Stepped<T> = Stepped(world: World, kept: Option<T>)

  /** `list.filter(callback)` where the callback may change the world: the callback
      runs on the elements in order, each run seeing the world the previous one left. */
  function FilterFold<T>(xs: seq<T>, w0: World, step: (World, T) -> Stepped<T>): (p: Pass<T>)
    ensures |p.kept| <= |xs|
  {
    if xs == [] then Pass(w0, [])
    else
      var p := FilterFold(Front(xs), w0, step);
      var s := step(p.world, Last(xs));
      Pass(s.world, p.kept + Elements(s.kept))
  }

  /** The pass over the first `i + 1` elements is the pass over the first `i` and one
      more callback, on element `i`. */
  lemma FilterFoldNext<T>(xs: seq<T>, i: nat, w0: World, step: (World, T) -> Stepped<T>)
    requires i < |xs|
    ensures var p := FilterFold(xs[..i], w0, step);
      var s := step(p.world, xs[i]);
      FilterFold(xs[..i + 1], w0, step) == Pass(s.world, p.kept + Elements(s.kept))
  {
    assert xs[..i + 1] == xs[..i] + [xs[i]];
    FilterFoldSnoc(xs[..i], xs[i], w0, step);
  }

  /** Running the pass on one more element is one more callback. */
  lemma FilterFoldSnoc<T>(xs: seq<T>, x: T, w0: World, step: (World, T) -> Stepped<T>)
    ensures var p := FilterFold(xs, w0, step);
      var s := step(p.world, x);
      FilterFold(xs + [x], w0, step) == Pass(s.world, p.kept + Elements(s.kept))
  {
    assert Front(xs + [x]) == xs;
  }
}
