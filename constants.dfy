/** Tuning values of the laboratory (constants.ts). Lengths are world pixels,
    speeds are pixels per frame, cooldowns are frames. */
module Constants {

  // World generation: concentric layers
  const LAYER_COUNT: int := 5
  const CENTER_ROOM_SIZE: int := 600
  const LAYER_THICKNESS: int := 450
  const WALL_SEGMENT_SIZE: int := 100

  const WORLD_WIDTH: int := CENTER_ROOM_SIZE + (LAYER_COUNT * LAYER_THICKNESS * 2)
  const WORLD_HEIGHT: int := CENTER_ROOM_SIZE + (LAYER_COUNT * LAYER_THICKNESS * 2)

  // Walls
  const WALL_HEIGHT: real := 100.0
  const WALL_THICKNESS: int := 40

  // Monster and humans
  const INITIAL_MONSTER_SIZE: real := 25.0
  const GROWTH_PER_HUMAN: real := 2.5
  const HUMAN_SIZE: real := 16.0
  const HUMAN_HEIGHT: real := 45.0
  const HUMAN_SPEED: real := 3.0
  const MONSTER_SPEED: real := 7.5

  // Combat
  const PROJECTILE_SPEED: real := 14.0
  const DAMAGE_SOLDIER: real := 1.5
  const DAMAGE_ELITE: real := 3.0
  const RANGE_SOLDIER: real := 400.0
  const RANGE_ELITE: real := 500.0
  const COOLDOWN_SOLDIER: real := 90.0
  const COOLDOWN_ELITE: real := 45.0

  /** The world is a square whose side is the centre room plus two layers per ring. */
  lemma WorldIsSquare()
    ensures WORLD_WIDTH == WORLD_HEIGHT == 5100
  {
  }

  /** An elite's weapon hits harder, reaches further and reloads faster than a soldier's. */
  lemma EliteOutclassesSoldier()
    ensures DAMAGE_ELITE > DAMAGE_SOLDIER
    ensures RANGE_ELITE > RANGE_SOLDIER
    ensures COOLDOWN_ELITE < COOLDOWN_SOLDIER
  {
  }

  /** Eating makes the monster strictly bigger than where it started. */
  lemma GrowthIsPositive()
    ensures GROWTH_PER_HUMAN > 0.0
    ensures INITIAL_MONSTER_SIZE + GROWTH_PER_HUMAN > INITIAL_MONSTER_SIZE
  {
  }

  /** A human's speed is HUMAN_SPEED plus a draw below 1, so the monster always outruns it. */
  lemma MonsterOutrunsHumans()
    ensures MONSTER_SPEED > HUMAN_SPEED + 1.0
  {
  }

  /** The wall segments tile every ring side exactly: the walls are thinner than half the
      centre room, and the segment length divides both the centre room and a ring's width. */
  lemma SegmentsTileRings()
    ensures 2 * WALL_THICKNESS < CENTER_ROOM_SIZE
    ensures CENTER_ROOM_SIZE % WALL_SEGMENT_SIZE == 0
    ensures (2 * LAYER_THICKNESS) % WALL_SEGMENT_SIZE == 0
    ensures CENTER_ROOM_SIZE / WALL_SEGMENT_SIZE > 0
  {
  }
}
