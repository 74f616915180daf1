/** The laboratory built by `initGame` (GameCanvas.tsx:53-208): for each ring, its wall
    segments, then its humans, then its props, each human and prop placed by the
    rejection sampler `getSafePos`. `dice(k)` is the k-th `Math.random()` result of
    the generation. */
module WorldGen {
  import opened Geometry
  import opened Lists
  import opened Entities
  import opened Constants

  /** Both coordinates of the world centre, where the monster starts. */
  const Centre: real := (WORLD_WIDTH as real) / 2.0

  /** Attempts `getSafePos` makes before it gives up. */
  const MaxAttempts: nat := 50

  /** Draws one attempt of `getSafePos` consumes. */
  const DrawsPerAttempt: nat := 2

  /** Draws a placed human consumes after its position: archetype, animation
      offset, speed, heading (unused by the simulation) and initial cooldown. */
  const DrawsPerRecruit: nat := 5

  /** Clearance `getSafePos` keeps around humans and around props. */
  const HumanPadding: real := 30.0
  const PropPadding: real := 60.0

  /** Side of the outer square of ring `i`. */
  function RingSize(i: nat): int
  {
    CENTER_ROOM_SIZE + i * LAYER_THICKNESS * 2
  }

  /** Half the side of ring `i`, `currentSize / 2`, as a real. */
  function HalfSize(i: nat): real
  {
    300.0 + 450.0 * (i as real)
  }

  lemma HalfSizeIsHalfRing(i: nat)
    ensures HalfSize(i) == (RingSize(i) as real) / 2.0
    ensures i > 0 ==> HalfSize(i - 1) == (RingSize(i - 1) as real) / 2.0
    ensures HalfSize(0) == (CENTER_ROOM_SIZE as real) / 2.0
  {
  }

  function HumanCount(i: nat): nat { 10 + i * 8 }
  function PropCount(i: nat): nat { 6 + i * 5 }

  /** `Math.ceil(a / b)` for integers. */
  function CeilDiv(a: int, b: int): (q: int)
    requires b > 0
    ensures (q - 1) * b < a <= q * b
  {
    -((-a) / b)
  }

  function SegmentsX(i: nat): int { CeilDiv(RingSize(i), WALL_SEGMENT_SIZE) }
  function SegmentsY(i: nat): int { CeilDiv(RingSize(i) - WALL_THICKNESS * 2, WALL_SEGMENT_SIZE) }

  /** The segment counts of ring `i`: both sides split into 6 + 9i segments. */
  lemma SegmentCounts(i: nat)
    ensures SegmentsX(i) == 6 + 9 * i
    ensures SegmentsY(i) == 6 + 9 * i
  {
  }

  /** Segment `s` of side `side` of ring `i`. */
  function RingWall(i: nat, side: Side, s: int): Wall
  {
    var half := HalfSize(i);
    var left := Centre - half;
    var top := Centre - half;
    var right := Centre + half;
    var bottom := Centre + half;
    var hp := 60 + i * 60;
    var requiredSize := INITIAL_MONSTER_SIZE + 15.0 + (i as real) * 20.0;
    var seg := WALL_SEGMENT_SIZE as real;
    var thick := WALL_THICKNESS as real;
    match side
    case Top => Wall(WallId(i, Top, s), left + (s as real) * seg, top, seg, thick, WALL_HEIGHT, hp, hp, requiredSize, i)
    case Bottom => Wall(WallId(i, Bottom, s), left + (s as real) * seg, bottom - thick, seg, thick, WALL_HEIGHT, hp, hp, requiredSize, i)
    case LeftSide => Wall(WallId(i, LeftSide, s), left, top + thick + (s as real) * seg, thick, seg, WALL_HEIGHT, hp, hp, requiredSize, i)
    case RightSide => Wall(WallId(i, RightSide, s), right - thick, top + thick + (s as real) * seg, thick, seg, WALL_HEIGHT, hp, hp, requiredSize, i)
  }

  /** The first `n` rounds of the top/bottom loop: segments alternate top, bottom. */
  function Rows(i: nat, n: nat): seq<Wall>
  {
    seq(2 * n, j requires 0 <= j < 2 * n => RingWall(i, if j % 2 == 0 then Top else Bottom, j / 2))
  }

  /** The first `n` rounds of the left/right loop: segments alternate left, right. */
  function Columns(i: nat, n: nat): seq<Wall>
  {
    seq(2 * n, j requires 0 <= j < 2 * n => RingWall(i, if j % 2 == 0 then LeftSide else RightSide, j / 2))
  }

  /** The walls of ring `i`, in the order `initGame` pushes them. */
  function RingWalls(i: nat): seq<Wall>
  {
    Rows(i, SegmentsX(i)) + Columns(i, SegmentsY(i))
  }

  /** Ring `i` has 24 + 36i walls. */
  lemma RingWallsLength(i: nat)
    ensures |RingWalls(i)| == 24 + 36 * i
  {
    SegmentCounts(i);
  }

  /** Every wall of ring `i` starts intact with 60 + 60i hit points, needs a monster
      of size 40 + 20i to be damaged, and knows its ring. */
  lemma RingWallsStats(i: nat)
    ensures forall w :: w in RingWalls(i) ==>
      w.hp == w.maxHp == 60 + 60 * i && w.requiredSize == 40.0 + 20.0 * (i as real) && w.layerIndex == i
  {
    SegmentCounts(i);
    forall w | w in RingWalls(i)
      ensures w.hp == w.maxHp == 60 + 60 * i && w.requiredSize == 40.0 + 20.0 * (i as real) && w.layerIndex == i
    {
      var j :| 0 <= j < |RingWalls(i)| && RingWalls(i)[j] == w;
    }
  }

  /** The left and right columns use ceil((size - 80) / 100) segments of length 100
      starting 40 below the ring's top edge, so the last one ends 40 past the ring's
      bottom edge, on top of the bottom row. */
  lemma ColumnsOverrunBottom(i: nat)
    ensures var last := RingWall(i, LeftSide, SegmentsY(i) - 1);
      last.y + last.height == Centre + HalfSize(i) + 40.0
  {
    SegmentCounts(i);
  }

  // ----- getSafePos -----

  /** `p` is strictly inside the square of half-side `half` around the centre:
      |dx| < half and |dy| < half. */
  predicate InSquare(p: Vec, half: real)
  {
    Centre - half < p.x < Centre + half && Centre - half < p.y < Centre + half
  }

  /** `p` is strictly beyond that square on some axis: |dx| > half or |dy| > half. */
  predicate OffSquare(p: Vec, half: real)
  {
    p.x < Centre - half || p.x > Centre + half || p.y < Centre - half || p.y > Centre + half
  }

  /** The spot `getSafePos(padding)` accepts in ring `i`: for the centre room, inside it
      by `padding`; for an outer ring, clear of the inner square by `padding` on some
      axis and inside the ring's outer square by `padding` on both. */
  predicate IsSafe(i: nat, padding: real, p: Vec)
  {
    if i == 0 then InSquare(p, HalfSize(0) - padding)
    else OffSquare(p, HalfSize(i - 1) + padding) && InSquare(p, HalfSize(i) - padding)
  }

  /** `IsSafe` is the source's test on dx = |px - startX| and dy = |py - startY|. */
  lemma IsSafeIsDistanceTest(i: nat, padding: real, p: Vec)
    ensures var dx := Abs(p.x - Centre);
      var dy := Abs(p.y - Centre);
      var inner := (if i == 0 then 0.0 else (RingSize(i - 1) as real) / 2.0) + padding;
      var outer := (RingSize(i) as real) / 2.0 - padding;
      IsSafe(i, padding, p) <==>
        if i == 0 then dx < (CENTER_ROOM_SIZE as real) / 2.0 - padding && dy < (CENTER_ROOM_SIZE as real) / 2.0 - padding
        else (dx > inner || dy > inner) && dx < outer && dy < outer
  {
    HalfSizeIsHalfRing(i);
  }

  /** The spot tried with draws k and k+1: uniform over ring `i`'s outer square. */
  function Candidate(dice: nat -> real, i: nat, k: nat): Vec
  {
    var size := 2.0 * HalfSize(i);
    Vec(Centre - HalfSize(i) + Mul(dice(k), size), Centre - HalfSize(i) + Mul(dice(k + 1), size))
  }

  /** What a search returns: the spot, if any, and the index of the next unused draw. */
  datatype Found = Found(pos: Option<Vec>, next: nat)

  /** `getSafePos` trying the draws from `k` on, two per attempt, while a whole
      attempt fits before draw `end`. */
  function SafeSearch(dice: nat -> real, i: nat, padding: real, k: nat, end: nat): (f: Found)
    decreases end - k
  {
    if k + DrawsPerAttempt > end then Found(None, k)
    else if IsSafe(i, padding, Candidate(dice, i, k)) then Found(Some(Candidate(dice, i, k)), k + DrawsPerAttempt)
    else SafeSearch(dice, i, padding, k + DrawsPerAttempt, end)
  }

  /** The budget of `getSafePos` starting at draw `k`: `MaxAttempts` attempts. */
  function Budget(k: nat): nat
  {
    k + DrawsPerAttempt * MaxAttempts
  }

  /** A search returns only safe spots, stays within its budget, and gives up only
      when no whole attempt is left. */
  lemma {:induction false} SafeSearchSound(dice: nat -> real, i: nat, padding: real, k: nat, end: nat)
    requires k <= end
    ensures var f := SafeSearch(dice, i, padding, k, end);
      (f.pos.Some? ==> IsSafe(i, padding, f.pos.value)) &&
      (f.pos.None? ==> end < f.next + DrawsPerAttempt) &&
      k <= f.next <= end
    decreases end - k
  {
    if k + DrawsPerAttempt <= end && !IsSafe(i, padding, Candidate(dice, i, k)) {
      SafeSearchSound(dice, i, padding, k + DrawsPerAttempt, end);
    }
  }

  /** `getSafePos`: a `while` loop over `attempts` and `safe`. */
  method GetSafePos(dice: nat -> real, i: nat, padding: real, k: nat) returns (pos: Option<Vec>, next: nat)
    ensures Found(pos, next) == SafeSearch(dice, i, padding, k, Budget(k))
  {
    var p := Vec(0.0, 0.0);
    var safe := false;
    var attempts := 0;
    next := k;
    ghost var goal := SafeSearch(dice, i, padding, k, Budget(k));
    while !safe && attempts < MaxAttempts
      invariant 0 <= attempts <= MaxAttempts
      invariant next == k + DrawsPerAttempt * attempts
      invariant safe ==> goal == Found(Some(p), next)
      invariant !safe ==> goal == SafeSearch(dice, i, padding, next, Budget(k))
      decreases MaxAttempts - attempts
    {
      attempts := attempts + 1;
      p := Candidate(dice, i, next);
      next := next + DrawsPerAttempt;
      if IsSafe(i, padding, p) {
        safe := true;
      }
    }
    pos := if safe then Some(p) else None;
  }

  // ----- Humans and props -----

  /** What an archetype draw decides: type, uniform and weapon. */
  datatype Arms = Arms(kind: HumanKind, color: Color, canShoot: bool, range: real, maxCooldown: real)

  /** The archetype of a human of ring `i` for the draw `rand`. */
  function Archetype(i: nat, rand: real): Arms
  {
    var scientist := Arms(Scientist, ScientistCoat, false, 0.0, 0.0);
    var guard := Arms(Guard, GuardUniform, false, 0.0, 0.0);
    var soldier := Arms(Soldier, SoldierUniform, true, RANGE_SOLDIER, COOLDOWN_SOLDIER);
    var elite := Arms(Elite, EliteUniform, true, RANGE_ELITE, COOLDOWN_ELITE);
    if i == 0 || i == 1 then
      if rand > 0.7 then guard else scientist
    else if i == 2 then
      if rand > 0.6 then soldier else if rand > 0.4 then guard else scientist
    else
      if rand > 0.7 then elite else if rand > 0.4 then soldier else scientist
  }

  /** Only scientists and guards staff the two inner rings, soldiers appear from ring 2
      and elites from ring 3; exactly soldiers and elites are armed, each with its
      weapon's range and cooldown. */
  lemma ArchetypeRanks(i: nat, rand: real)
    ensures var a := Archetype(i, rand);
      (i <= 1 ==> a.kind == Scientist || a.kind == Guard) &&
      (a.canShoot <==> a.kind == Soldier || a.kind == Elite) &&
      (a.kind == Soldier ==> i >= 2 && a.range == RANGE_SOLDIER && a.maxCooldown == COOLDOWN_SOLDIER) &&
      (a.kind == Elite ==> i >= 3 && a.range == RANGE_ELITE && a.maxCooldown == COOLDOWN_ELITE) &&
      (!a.canShoot ==> a.range == 0.0 && a.maxCooldown == 0.0)
  {
  }

  /** Human `slot` of ring `i` standing at `pos`, built from draws k .. k+4. */
  function Recruit(dice: nat -> real, i: nat, slot: nat, pos: Vec, k: nat): Human
  {
    var a := Archetype(i, dice(k));
    Human(HumanId(i, slot), pos, Zero, HUMAN_SIZE, HUMAN_HEIGHT, a.color, a.kind,
          Idle, 0.0, false, HUMAN_SPEED + dice(k + 2), dice(k + 1) * 10.0,
          a.canShoot, a.range, Mul(dice(k + 4), a.maxCooldown), a.maxCooldown)
  }

  /** Prop `slot` of ring `i` at `pos`, its type from draw k. */
  function Furnish(dice: nat -> real, i: nat, slot: nat, pos: Vec, k: nat): Prop
  {
    if dice(k) > 0.5 then Prop(PropId(i, slot), Server, pos.x, pos.y, 50.0, 30.0, 70.0)
    else Prop(PropId(i, slot), CryoTank, pos.x, pos.y, 40.0, 40.0, 80.0)
  }

  /** The state of the ring loop as far as the random stream drives it: the ring about
      to be built, the humans and props placed so far and the next unused draw. (The walls
      take no draw; `Walls` gives them.) */
  datatype Gen = Gen(ring: nat, humans: seq<Human>, props: seq<Prop>, next: nat)

  /** One round of the humans loop: search a spot for slot `h`, and recruit a human there if found. */
  function Enlist(dice: nat -> real, i: nat, h: nat, g: Gen): (r: Gen)
    ensures r.props == g.props
  {
    var f := SafeSearch(dice, i, HumanPadding, g.next, Budget(g.next));
    if f.pos.Some? then g.(humans := g.humans + [Recruit(dice, i, h, f.pos.value, f.next)], next := f.next + DrawsPerRecruit)
    else g.(next := f.next)
  }

  /** The humans loop of ring `i` from slot `h` on. */
  function PlaceHumans(dice: nat -> real, i: nat, h: nat, count: nat, g: Gen): (r: Gen)
    decreases count - h
  {
    if h >= count then g else PlaceHumans(dice, i, h + 1, count, Enlist(dice, i, h, g))
  }

  /** One round of the props loop: search a spot for slot `p`, and put a prop there if found. */
  function Stock(dice: nat -> real, i: nat, p: nat, g: Gen): (r: Gen)
    ensures r.humans == g.humans
  {
    var f := SafeSearch(dice, i, PropPadding, g.next, Budget(g.next));
    if f.pos.Some? then g.(props := g.props + [Furnish(dice, i, p, f.pos.value, f.next)], next := f.next + 1)
    else g.(next := f.next)
  }

  /** The props loop of ring `i` from slot `p` on. */
  function PlaceProps(dice: nat -> real, i: nat, p: nat, count: nat, g: Gen): (r: Gen)
    decreases count - p
  {
    if p >= count then g else PlaceProps(dice, i, p + 1, count, Stock(dice, i, p, g))
  }

  // ----- What the generated lists satisfy -----

  /** Every draw lies in [0, 1), as `Math.random()` promises. */
  ghost predicate Fair(dice: nat -> real)
  {
    forall k :: 0.0 <= dice(k) < 1.0
  }

  /** How a generated human starts: in a ring of the laboratory, with a slot below that
      ring's head count, at a safe spot of the ring, idle and still, unarmed in the two
      inner rings, and with a speed of HUMAN_SPEED plus a draw, below HUMAN_SPEED + 1. */
  ghost predicate Recruited(h: Human)
  {
    0 <= h.id.layer < LAYER_COUNT && 0 <= h.id.slot < HumanCount(h.id.layer) &&
    IsSafe(h.id.layer, HumanPadding, h.pos) &&
    h.state == Idle && h.velocity == Zero && h.radius == HUMAN_SIZE &&
    (h.id.layer <= 1 ==> !h.canShoot) &&
    HUMAN_SPEED <= h.speed < HUMAN_SPEED + 1.0
  }

  /** How a generated prop starts: in a ring of the laboratory, with a slot below that
      ring's prop count, at a safe spot of the ring, and a server or a cryo tank. */
  ghost predicate Furnished(p: Prop)
  {
    0 <= p.id.layer < LAYER_COUNT && 0 <= p.id.slot < PropCount(p.id.layer) &&
    IsSafe(p.id.layer, PropPadding, Vec(p.x, p.y)) && p.kind != Desk
  }

  /** Every human and every prop built so far starts as described above. */
  ghost predicate Populated(g: Gen)
  {
    (forall j :: 0 <= j < |g.humans| ==> Recruited(g.humans[j])) &&
    (forall j :: 0 <= j < |g.props| ==> Furnished(g.props[j]))
  }

  /** A human recruited at a safe spot of ring `i` starts as `Recruited` says. */
  lemma RecruitStartsCalm(dice: nat -> real, i: nat, slot: nat, pos: Vec, k: nat)
    requires Fair(dice)
    requires i < LAYER_COUNT && slot < HumanCount(i) && IsSafe(i, HumanPadding, pos)
    ensures Recruited(Recruit(dice, i, slot, pos, k))
  {
    ArchetypeRanks(i, dice(k));
  }

  /** One round of the humans loop keeps the lists `Populated` (given fair draws) and adds
      at most one human. */
  lemma EnlistKeeps(dice: nat -> real, i: nat, h: nat, g: Gen)
    requires i < LAYER_COUNT && h < HumanCount(i)
    ensures var r := Enlist(dice, i, h, g);
      (Fair(dice) && Populated(g) ==> Populated(r)) && |r.humans| <= |g.humans| + 1 && g.next <= r.next
  {
    SafeSearchSound(dice, i, HumanPadding, g.next, Budget(g.next));
    var f := SafeSearch(dice, i, HumanPadding, g.next, Budget(g.next));
    if f.pos.Some? && Fair(dice) {
      RecruitStartsCalm(dice, i, h, f.pos.value, f.next);
    }
  }

  /** The humans loop of ring `i` from slot `h` keeps the lists `Populated` (given fair
      draws), adds at
      most one human per remaining slot, and leaves the props alone. */
  lemma {:induction false} PlaceHumansKeeps(dice: nat -> real, i: nat, h: nat, count: nat, g: Gen)
    requires i < LAYER_COUNT && h <= count <= HumanCount(i)
    ensures var r := PlaceHumans(dice, i, h, count, g);
      r.props == g.props &&
      (Fair(dice) && Populated(g) ==> Populated(r)) && |r.humans| <= |g.humans| + (count - h)
    decreases count - h
  {
    if h < count {
      EnlistKeeps(dice, i, h, g);
      PlaceHumansKeeps(dice, i, h + 1, count, Enlist(dice, i, h, g));
    }
  }

  /** One round of the props loop keeps the lists `Populated` and adds at most one prop. */
  lemma StockKeeps(dice: nat -> real, i: nat, p: nat, g: Gen)
    requires i < LAYER_COUNT && p < PropCount(i)
    ensures var r := Stock(dice, i, p, g);
      (Populated(g) ==> Populated(r)) && |r.props| <= |g.props| + 1 && g.next <= r.next
  {
    SafeSearchSound(dice, i, PropPadding, g.next, Budget(g.next));
  }

  /** The props loop of ring `i` from slot `p` keeps the lists `Populated`, adds at
      most one prop per remaining slot, and leaves the humans alone. */
  lemma {:induction false} PlacePropsKeeps(dice: nat -> real, i: nat, p: nat, count: nat, g: Gen)
    requires i < LAYER_COUNT && p <= count <= PropCount(i)
    ensures var r := PlaceProps(dice, i, p, count, g);
      r.humans == g.humans &&
      (Populated(g) ==> Populated(r)) && |r.props| <= |g.props| + (count - p)
    decreases count - p
  {
    if p < count {
      StockKeeps(dice, i, p, g);
      PlacePropsKeeps(dice, i, p + 1, count, Stock(dice, i, p, g));
    }
  }

  /** One iteration of the ring loop after its walls: the humans, then the props of
      ring `g.ring`. */
  function GenRing(dice: nat -> real, g: Gen): Gen
  {
    var i := g.ring;
    PlaceProps(dice, i, 0, PropCount(i), PlaceHumans(dice, i, 0, HumanCount(i), g)).(ring := i + 1)
  }

  /** The ring loop from ring `g.ring` on. */
  function GenRings(dice: nat -> real, g: Gen): Gen
    decreases LAYER_COUNT - g.ring
  {
    if g.ring >= LAYER_COUNT then g else GenRings(dice, GenRing(dice, g))
  }

  /** The humans and props `initGame` stores, drawing from `dice` at index `start` on:
      the rings are generated from nothing built yet, with `dice(start)` the first draw. */
  function Layout(dice: nat -> real, start: nat): Gen
  {
    GenRings(dice, Gen(0, [], [], start))
  }

  /** The walls of rings 0 to `n - 1`, in the order `initGame` pushes them. */
  function Walls(n: nat): seq<Wall>
  {
    if n == 0 then [] else Walls(n - 1) + RingWalls(n - 1)
  }

  /** How a generated wall starts: intact, with the hit points and the size threshold
      of its ring. */
  predicate Built(w: Wall)
  {
    0 <= w.layerIndex < LAYER_COUNT && w.hp == w.maxHp == 60 + 60 * w.layerIndex &&
    w.requiredSize == 40.0 + 20.0 * (w.layerIndex as real)
  }

  /** One iteration of the ring loop keeps the lists `Populated`. */
  lemma GenRingPopulated(dice: nat -> real, g: Gen)
    requires Fair(dice) && g.ring < LAYER_COUNT && Populated(g)
    ensures Populated(GenRing(dice, g))
  {
    var i := g.ring;
    PlaceHumansKeeps(dice, i, 0, HumanCount(i), g);
    PlacePropsKeeps(dice, i, 0, PropCount(i), PlaceHumans(dice, i, 0, HumanCount(i), g));
  }

  /** One iteration of the ring loop moves on to the next ring and adds at most the ring's
      head count of humans, 10 + 8i, and its count of props, 6 + 5i. */
  lemma GenRingRoom(dice: nat -> real, g: Gen)
    requires g.ring < LAYER_COUNT
    ensures var r := GenRing(dice, g);
      r.ring == g.ring + 1 &&
      |r.humans| <= |g.humans| + HumanCount(g.ring) && |r.props| <= |g.props| + PropCount(g.ring)
  {
    var i := g.ring;
    PlaceHumansKeeps(dice, i, 0, HumanCount(i), g);
    PlacePropsKeeps(dice, i, 0, PropCount(i), PlaceHumans(dice, i, 0, HumanCount(i), g));
  }

  /** The head counts of rings `r` to LAYER_COUNT - 1 added up. */
  function HeadRoom(r: nat): nat
    decreases LAYER_COUNT - r
  {
    if r >= LAYER_COUNT then 0 else HumanCount(r) + HeadRoom(r + 1)
  }

  /** The prop counts of rings `r` to LAYER_COUNT - 1 added up. */
  function PropRoom(r: nat): nat
    decreases LAYER_COUNT - r
  {
    if r >= LAYER_COUNT then 0 else PropCount(r) + PropRoom(r + 1)
  }

  /** The ring loop from ring `g.ring` on adds at most the head counts and prop counts
      of the rings it generates. */
  lemma {:induction false} GenRingsRoom(dice: nat -> real, g: Gen)
    ensures var r := GenRings(dice, g);
      |r.humans| <= |g.humans| + HeadRoom(g.ring) && |r.props| <= |g.props| + PropRoom(g.ring)
    decreases LAYER_COUNT - g.ring
  {
    if g.ring < LAYER_COUNT {
      GenRingRoom(dice, g);
      GenRingsRoom(dice, GenRing(dice, g));
    }
  }

  /** The ring loop from ring `g.ring` on keeps the lists `Populated`. */
  lemma {:induction false} GenRingsPopulated(dice: nat -> real, g: Gen)
    requires Fair(dice) && Populated(g)
    ensures Populated(GenRings(dice, g))
    decreases LAYER_COUNT - g.ring
  {
    if g.ring < LAYER_COUNT {
      var g' := GenRing(dice, g);
      GenRingPopulated(dice, g);
      GenRingsPopulated(dice, g');
      assert GenRings(dice, g) == GenRings(dice, g');
    }
  }

  /** Every wall of rings 0 to `n - 1` starts `Built`. */
  lemma {:induction false} WallsBuilt(n: nat)
    requires n <= LAYER_COUNT
    ensures forall w :: w in Walls(n) ==> Built(w)
  {
    if n > 0 {
      RingWallsStats(n - 1);
      WallsBuilt(n - 1);
    }
  }

  /** The five rings hold 24 + 60 + 96 + 132 + 168 = 480 walls. */
  lemma WallTotal()
    ensures |Walls(LAYER_COUNT)| == 480
  {
    RingWallsLength(0);
    assert |Walls(1)| == 24;
    RingWallsLength(1);
    assert |Walls(2)| == 84;
    RingWallsLength(2);
    assert |Walls(3)| == 180;
    RingWallsLength(3);
    assert |Walls(4)| == 312;
    RingWallsLength(4);
  }

  /** What `initGame` places: humans that are each `Recruited` and props that are each
      `Furnished`. */
  lemma LayoutSound(dice: nat -> real, start: nat)
    requires Fair(dice)
    ensures Populated(Layout(dice, start))
  {
    var g0 := Gen(0, [], [], start);
    assert Populated(g0);
    GenRingsPopulated(dice, g0);
  }

  /** `initGame` places at most 10 + 18 + 26 + 34 + 42 = 130 humans and
      6 + 11 + 16 + 21 + 26 = 80 props. */
  lemma LayoutRoom(dice: nat -> real, start: nat)
    ensures |Layout(dice, start).humans| <= 130 && |Layout(dice, start).props| <= 80
  {
    GenRingsRoom(dice, Gen(0, [], [], start));
    assert HeadRoom(0) == 130 && PropRoom(0) == 80;
  }

    /** Every human `initGame` places is slower than the monster. */
  lemma MonsterOutrunsLayout(dice: nat -> real, start: nat)
    requires Fair(dice)
    ensures var hs := Layout(dice, start).humans;
      forall j :: 0 <= j < |hs| ==> hs[j].speed < MONSTER_SPEED
  {
    LayoutSound(dice, start);
    MonsterOutrunsHumans();
  }

  // ----- The generation loops -----

  /** The two wall loops of ring `i`. */
  method BuildRingWalls(i: nat) returns (walls: seq<Wall>)
    ensures walls == RingWalls(i)
  {
    walls := [];
    var nx := SegmentsX(i);
    var ny := SegmentsY(i);
    SegmentCounts(i);
    for s := 0 to nx
      invariant walls == Rows(i, s)
    {
      walls := walls + [RingWall(i, Top, s), RingWall(i, Bottom, s)];
      assert walls == Rows(i, s + 1);
    }
    for s := 0 to ny
      invariant walls == Rows(i, nx) + Columns(i, s)
    {
      assert Columns(i, s + 1) == Columns(i, s) + [RingWall(i, LeftSide, s), RingWall(i, RightSide, s)];
      walls := walls + [RingWall(i, LeftSide, s), RingWall(i, RightSide, s)];
    }
  }

  /** The humans loop of ring `i`. */
  method PlaceRingHumans(dice: nat -> real, i: nat, g: Gen) returns (r: Gen)
    ensures r == PlaceHumans(dice, i, 0, HumanCount(i), g)
  {
    r := g;
    var count := HumanCount(i);
    ghost var goal := PlaceHumans(dice, i, 0, count, g);
    for h := 0 to count
      invariant PlaceHumans(dice, i, h, count, r) == goal
    {
      ghost var before := r;
      var pos, next := GetSafePos(dice, i, HumanPadding, r.next);
      if pos.Some? {
        r := r.(humans := r.humans + [Recruit(dice, i, h, pos.value, next)], next := next + DrawsPerRecruit);
      } else {
        r := r.(next := next);
      }
      assert r == Enlist(dice, i, h, before);
    }
  }

  /** The props loop of ring `i`. */
  method PlaceRingProps(dice: nat -> real, i: nat, g: Gen) returns (r: Gen)
    ensures r == PlaceProps(dice, i, 0, PropCount(i), g)
  {
    r := g;
    var count := PropCount(i);
    ghost var goal := PlaceProps(dice, i, 0, count, g);
    for p := 0 to count
      invariant PlaceProps(dice, i, p, count, r) == goal
    {
      ghost var before := r;
      var pos, next := GetSafePos(dice, i, PropPadding, r.next);
      if pos.Some? {
        r := r.(props := r.props + [Furnish(dice, i, p, pos.value, next)], next := next + 1);
      } else {
        r := r.(next := next);
      }
      assert r == Stock(dice, i, p, before);
    }
  }

  /** One iteration of the ring loop of `initGame`: the walls, humans and props of ring `g.ring`. */
  method GenerateRing(dice: nat -> real, g: Gen) returns (ringWalls: seq<Wall>, r: Gen)
    requires g.ring < LAYER_COUNT
    ensures ringWalls == RingWalls(g.ring) && r == GenRing(dice, g) && r.ring == g.ring + 1
  {
    var i := g.ring;
    ringWalls := BuildRingWalls(i);
    r := PlaceRingHumans(dice, i, g);
    r := PlaceRingProps(dice, i, r);
    r := r.(ring := i + 1);
  }

  /** The ring loop of `initGame`. */
  method GenerateLayout(dice: nat -> real, start: nat) returns (walls: seq<Wall>, g: Gen)
    ensures walls == Walls(LAYER_COUNT) && g == Layout(dice, start)
  {
    walls := [];
    g := Gen(0, [], [], start);
    ghost var goal := Layout(dice, start);
    for i := 0 to LAYER_COUNT
      invariant walls == Walls(i)
      invariant g.ring == i && GenRings(dice, g) == goal
    {
      var ringWalls, g' := GenerateRing(dice, g);
      assert GenRings(dice, g) == GenRings(dice, g');
      walls, g := walls + ringWalls, g';
    }
  }
}
