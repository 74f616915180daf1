/** The records of the game (types.ts), restricted to the fields the simulation reads. */
module Entities {
  import opened Geometry

  datatype GameState = Menu | Playing | GameOver | Victory

  datatype HumanState = Idle | Run | Trip | Cower | Shiver

  datatype HumanKind = Scientist | Guard | Soldier | Elite

  datatype PropKind = Server | CryoTank | Desk

  /** The palette entries (constants.ts COLORS) that end up in simulated records. */
  datatype Color =
    | ScientistCoat | GuardUniform | SoldierUniform | EliteUniform
    | Tracer | EliteTracer | MonsterViolet
    | WallBase | WallBroken | Spark | CryoLiquid | Blood

  /** The player. `radius` is both its size and its health; `damage` is the wall-breaking power. */
  datatype Monster = Monster(
    pos: Vec,
    radius: real,
    visualHeight: real,
    level: int,
    exp: int,
    nextLevelExp: int,
    damage: int)

  /** A human's identifier `h-l<layer>-<slot>`. */
  datatype HumanId = HumanId(layer: int, slot: int)

  datatype Human = Human(
    id: HumanId,
    pos: Vec,
    velocity: Vec,
    radius: real,
    visualHeight: real,
    color: Color,
    kind: HumanKind,
    state: HumanState,
    stateTimer: real,
    panic: bool,
    speed: real,
    animOffset: real,
    canShoot: bool,
    attackRange: real,
    attackCooldown: real,
    maxCooldown: real)

  datatype Side = Top | Bottom | LeftSide | RightSide

  /** A wall's identifier `w-l<layer>-<side>-<segment>`. */
  datatype WallId = WallId(layer: int, side: Side, segment: int)

  datatype Wall = Wall(
    id: WallId,
    x: real,
    y: real,
    width: real,
    height: real,
    visualHeight: real,
    hp: int,
    maxHp: int,
    requiredSize: real,
    layerIndex: int)
  {
    function Box(): Rect { Rect(x, y, width, height) }
  }

  /** A prop's identifier `p-l<layer>-<slot>`. */
  datatype PropId = PropId(layer: int, slot: int)

  datatype Prop = Prop(
    id: PropId,
    kind: PropKind,
    x: real,
    y: real,
    width: real,
    height: real,
    visualHeight: real)
  {
    function Box(): Rect { Rect(x, y, width, height) }
  }

  datatype Projectile = Projectile(x: real, y: real, vx: real, vy: real, damage: real, color: Color)
  {
    function At(): Vec { Vec(x, y) }
  }

  datatype Particle = Particle(
    x: real, y: real, z: real,
    vx: real, vy: real, vz: real,
    life: real, maxLife: real,
    color: Color, size: real)
}
