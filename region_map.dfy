/**
 * The `Game_Map` queries of RegionBase.js: which rule applies to a tile, how the
 * region and terrain-tag values combine, the directional collision test, the
 * passability policy and the tile-flag attributes.
 */
module RegionMap {
  import opened Common
  import opened RegionData

  /**
   * What the map queries read: the two rule tables and the engine's per-tile
   * `regionId(x, y)` and `terrainTag(x, y)`.
   */
  datatype GameMap = GameMap(
    regions: RuleTable,
    terrainTags: RuleTable,
    regionId: (int, int) -> int,
    terrainTag: (int, int) -> int)

  /** Whose passability is asked: the player or a map event. */
  datatype Subject = Player | Event

  /** Directions in the engine's numeric-keypad encoding. */
  const DIR_DOWN := 2
  const DIR_LEFT := 4
  const DIR_RIGHT := 6
  const DIR_UP := 8

  /** Tile-flag bits that a rule's `tileAttribute` list can supply. */
  const FLAG_LADDER := 0x20
  const FLAG_BUSH := 0x40
  const FLAG_COUNTER := 0x80
  const FLAG_DAMAGE_FLOOR := 0x100

  /** `table[id]`: absent when the id has no configured entry. */
  function Lookup(table: RuleTable, id: int): (r: Option<RuleRecord>)
    ensures r.Some? <==> id in table
    ensures r.Some? ==> r.value == table[id]
  {
    if id in table then Some(table[id]) else None
  }

  /** `findCurrentRegion(x, y)` */
  function FindCurrentRegion(m: GameMap, x: int, y: int): (r: Option<RuleRecord>)
    ensures r.Some? <==> m.regionId(x, y) in m.regions
    ensures r.Some? ==> r.value == m.regions[m.regionId(x, y)]
  {
    Lookup(m.regions, m.regionId(x, y))
  }

  /** `findCurrentTerrainTag(x, y)` */
  function FindCurrentTerrainTag(m: GameMap, x: int, y: int): (r: Option<RuleRecord>)
    ensures r.Some? <==> m.terrainTag(x, y) in m.terrainTags
    ensures r.Some? ==> r.value == m.terrainTags[m.terrainTag(x, y)]
  {
    Lookup(m.terrainTags, m.terrainTag(x, y))
  }

  /** `record ? record[prop] : []` */
  function ListOf<T>(record: Option<RuleRecord>, prop: RuleRecord -> seq<T>): (r: seq<T>)
  {
    if record.Some? then prop(record.value) else []
  }

  /**
   * `findArrayDataRegionAndTerrain(x, y, prop)`: the region's list followed by the
   * terrain tag's list, an absent record contributing nothing.
   */
  function FindArrayDataRegionAndTerrain<T(!new)>(m: GameMap, x: int, y: int, prop: RuleRecord -> seq<T>): (r: seq<T>)
    ensures |r| == |ListOf(FindCurrentRegion(m, x, y), prop)| + |ListOf(FindCurrentTerrainTag(m, x, y), prop)|
    ensures r[..|ListOf(FindCurrentRegion(m, x, y), prop)|] == ListOf(FindCurrentRegion(m, x, y), prop)
    ensures r[|ListOf(FindCurrentRegion(m, x, y), prop)|..] == ListOf(FindCurrentTerrainTag(m, x, y), prop)
    ensures forall v :: v in r <==>
      (FindCurrentRegion(m, x, y).Some? && v in prop(FindCurrentRegion(m, x, y).value))
      || (FindCurrentTerrainTag(m, x, y).Some? && v in prop(FindCurrentTerrainTag(m, x, y).value))
  {
    ListOf(FindCurrentRegion(m, x, y), prop) + ListOf(FindCurrentTerrainTag(m, x, y), prop)
  }

  /**
   * `findDataRegionAndTerrain(x, y, prop)`: the region's value when it is truthy,
   * else the terrain tag's value when that is truthy, else `null` (`None`).
   */
  function FindDataRegionAndTerrain<T>(m: GameMap, x: int, y: int, prop: RuleRecord -> T, truthy: T -> bool): (r: Option<T>)
    ensures r.Some? ==> truthy(r.value)
    ensures FindCurrentRegion(m, x, y).Some? && truthy(prop(FindCurrentRegion(m, x, y).value)) ==>
      r == Some(prop(FindCurrentRegion(m, x, y).value))
    ensures !(FindCurrentRegion(m, x, y).Some? && truthy(prop(FindCurrentRegion(m, x, y).value))) ==>
      r == (if FindCurrentTerrainTag(m, x, y).Some? && truthy(prop(FindCurrentTerrainTag(m, x, y).value))
            then Some(prop(FindCurrentTerrainTag(m, x, y).value)) else None)
  {
    var region := FindCurrentRegion(m, x, y);
    if region.Some? && truthy(prop(region.value)) then Some(prop(region.value))
    else
      var terrain := FindCurrentTerrainTag(m, x, y);
      if terrain.Some? && truthy(prop(terrain.value)) then Some(prop(terrain.value))
      else None
  }

  /** `isThroughByRegion(x, y)`: through is set on the tile's region or on its terrain tag. */
  function IsThroughByRegion(m: GameMap, x: int, y: int): (r: bool)
    ensures r <==> ((FindCurrentRegion(m, x, y).Some? && FindCurrentRegion(m, x, y).value.through)
                    || (FindCurrentTerrainTag(m, x, y).Some? && FindCurrentTerrainTag(m, x, y).value.through))
  {
    FindDataRegionAndTerrain(m, x, y, (r: RuleRecord) => r.through, (b: bool) => b).Some?
  }

  /** The collision list a rule holds for `subject`. */
  function CollisionsFor(record: RuleRecord, subject: Subject): seq<Collision>
  {
    match subject
    case Player => record.collisionForPlayer
    case Event => record.collisionForEvent
  }

  /**
   * `Game_Player` / `Game_Event.findCollisionData(x, y)`: the subject's own
   * collision flags of the tile's region and of its terrain tag, region first.
   */
  function FindCollisionData(m: GameMap, subject: Subject, x: int, y: int): (r: seq<Collision>)
    ensures forall c :: c in r <==>
      (FindCurrentRegion(m, x, y).Some? && c in CollisionsFor(FindCurrentRegion(m, x, y).value, subject))
      || (FindCurrentTerrainTag(m, x, y).Some? && c in CollisionsFor(FindCurrentTerrainTag(m, x, y).value, subject))
  {
    match subject
    case Player => FindArrayDataRegionAndTerrain(m, x, y, (r: RuleRecord) => r.collisionForPlayer)
    case Event => FindArrayDataRegionAndTerrain(m, x, y, (r: RuleRecord) => r.collisionForEvent)
  }

  /** A single collision flag forbids moving in direction `d`. */
  predicate Blocks(c: Collision, d: int)
  {
    match c
    case CollisionAll => true
    case CollisionUp => d == DIR_UP
    case CollisionRight => d == DIR_RIGHT
    case CollisionLeft => d == DIR_LEFT
    case CollisionDown => d == DIR_DOWN
  }

  /**
   * `isCollidedByRegion(x, y, d)`: some collision flag of the subject's combined
   * list blocks direction `d`; an empty list never collides.
   */
  function IsCollidedByRegion(m: GameMap, subject: Subject, x: int, y: int, d: int): (r: bool)
    ensures r <==> exists c :: c in FindCollisionData(m, subject, x, y) && Blocks(c, d)
    ensures FindCollisionData(m, subject, x, y) == [] ==> !r
  {
    var collision := FindCollisionData(m, subject, x, y);
    if |collision| == 0 then false
    else
      CollisionTestIsBlocking(collision, d);
      CollisionAll in collision
        || (CollisionUp in collision && d == DIR_UP)
        || (CollisionRight in collision && d == DIR_RIGHT)
        || (CollisionLeft in collision && d == DIR_LEFT)
        || (CollisionDown in collision && d == DIR_DOWN)
  }

  /** The flag-by-flag test of `isCollidedByRegion` asks whether some flag blocks `d`. */
  lemma CollisionTestIsBlocking(collision: seq<Collision>, d: int)
    ensures (CollisionAll in collision
             || (CollisionUp in collision && d == DIR_UP)
             || (CollisionRight in collision && d == DIR_RIGHT)
             || (CollisionLeft in collision && d == DIR_LEFT)
             || (CollisionDown in collision && d == DIR_DOWN))
        <==> exists c :: c in collision && Blocks(c, d)
  {
    if exists c :: c in collision && Blocks(c, d) {
      var c :| c in collision && Blocks(c, d);
      match c
      case CollisionAll =>
      case CollisionUp =>
      case CollisionRight =>
      case CollisionLeft =>
      case CollisionDown =>
    }
  }

  /**
   * `Game_Map.isPassable(x, y, d)` for `subject`, given the engine's own answer
   * `basePassable`: collision wins over through, and through wins over the engine.
   */
  function IsPassable(m: GameMap, subject: Subject, x: int, y: int, d: int, basePassable: bool): (r: bool)
    ensures r <==> !IsCollidedByRegion(m, subject, x, y, d) && (IsThroughByRegion(m, x, y) || basePassable)
  {
    if IsCollidedByRegion(m, subject, x, y, d) then false
    else if IsThroughByRegion(m, x, y) then true
    else basePassable
  }

  /** A region whose collision list for the subject holds `collision_all` blocks every direction,
      whatever the through flags and the engine say. */
  lemma CollisionAllBeatsThrough(m: GameMap, subject: Subject, x: int, y: int, d: int, basePassable: bool)
    requires FindCurrentRegion(m, x, y).Some?
    requires CollisionAll in CollisionsFor(FindCurrentRegion(m, x, y).value, subject)
    ensures !IsPassable(m, subject, x, y, d, basePassable)
  {
    assert CollisionAll in FindCollisionData(m, subject, x, y) && Blocks(CollisionAll, d);
  }

  /** The tile attribute that a tile-flag bit asks about, if any. */
  function FlagAttribute(bit: int): (a: Option<TileAttribute>)
    ensures a.Some? <==> bit in {FLAG_LADDER, FLAG_BUSH, FLAG_COUNTER, FLAG_DAMAGE_FLOOR}
  {
    if bit == FLAG_LADDER then Some(Ladder)
    else if bit == FLAG_BUSH then Some(Bush)
    else if bit == FLAG_COUNTER then Some(Counter)
    else if bit == FLAG_DAMAGE_FLOOR then Some(DamageFloor)
    else None
  }

  /**
   * `checkLayeredTilesFlags(x, y, bit)` given the engine's own answer `baseResult`:
   * true when the engine says so; otherwise the ladder/bush/counter/damage-floor
   * bits test the combined `tileAttribute` list and every other bit is false.
   */
  function CheckLayeredTilesFlags(m: GameMap, x: int, y: int, bit: int, baseResult: bool): (r: bool)
    ensures baseResult ==> r
    ensures !baseResult ==> (r <==> (FlagAttribute(bit).Some?
      && FlagAttribute(bit).value in FindArrayDataRegionAndTerrain(m, x, y, (rr: RuleRecord) => rr.tileAttribute)))
  {
    if baseResult then true
    else
      var attribute := FindArrayDataRegionAndTerrain(m, x, y, (rr: RuleRecord) => rr.tileAttribute);
      if bit == FLAG_LADDER then Ladder in attribute
      else if bit == FLAG_BUSH then Bush in attribute
      else if bit == FLAG_COUNTER then Counter in attribute
      else if bit == FLAG_DAMAGE_FLOOR then DamageFloor in attribute
      else false
  }
}
