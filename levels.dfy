/**
 * The Level Resolver: the heights the sea-level effect derives for one world
 * at one moment from the world's own sea level, the configured floor and the
 * two values read off the distribution (the delta for the current temperature
 * and the delta for the configured maximum temperature, both already cast to
 * int by the caller).
 */
module Levels {

  /** The heights one chunk update or one flow event works with. */
  datatype Thresholds = Thresholds(
    base: int,    // the lowest layer the effect scans (minSeaLevel / baseLevel)
    delta: int,   // the current sea-level delta
    custom: int,  // the current sea line
    max: int      // the highest sea line the effect can ever reach (exclusive bound of the scan)
  )

  /** java.lang.Math.max on int. */
  function Max(a: int, b: int): (m: int)
    ensures m >= a && m >= b && (m == a || m == b)
  {
    if a >= b then a else b
  }

  /** The thresholds `updateChunk` computes: the base is the world's sea level
      minus one, raised to the configured floor. */
  function ChunkThresholds(worldSeaLevel: int, baseSeaLevel: int, delta: int, maxDelta: int): (t: Thresholds)
    ensures t.base >= worldSeaLevel - 1 && t.base >= baseSeaLevel
    ensures t.base == worldSeaLevel - 1 || t.base == baseSeaLevel
    ensures t.delta == delta
    ensures t.custom == t.base + delta
    ensures t.max == t.base + maxDelta
  {
    var minSeaLevel := Max(worldSeaLevel - 1, baseSeaLevel);
    Thresholds(minSeaLevel, delta, minSeaLevel + delta, minSeaLevel + maxDelta)
  }

  /** The thresholds the flow handler computes: the larger of the floor and the
      world's sea level, minus one. */
  function FlowThresholds(worldSeaLevel: int, baseSeaLevel: int, delta: int, maxDelta: int): (t: Thresholds)
    ensures t.base + 1 >= worldSeaLevel && t.base + 1 >= baseSeaLevel
    ensures t.base + 1 == worldSeaLevel || t.base + 1 == baseSeaLevel
    ensures t.delta == delta
    ensures t.custom == t.base + delta
    ensures t.max == t.base + maxDelta
  {
    var baseLevel := Max(baseSeaLevel, worldSeaLevel) - 1;
    Thresholds(baseLevel, delta, baseLevel + delta, baseLevel + maxDelta)
  }

  /** The two ways of computing the base agree exactly when the floor lies
      below the world's sea level; otherwise the flow handler's base, and with
      it its sea line and maximum, is one layer lower. */
  lemma FlowBaseAgainstChunkBase(worldSeaLevel: int, baseSeaLevel: int, delta: int, maxDelta: int)
    ensures var c, f := ChunkThresholds(worldSeaLevel, baseSeaLevel, delta, maxDelta),
                        FlowThresholds(worldSeaLevel, baseSeaLevel, delta, maxDelta);
            (baseSeaLevel < worldSeaLevel ==> f == c) &&
            (baseSeaLevel >= worldSeaLevel ==>
               f.base == c.base - 1 && f.custom == c.custom - 1 && f.max == c.max - 1 && f.delta == c.delta)
  {
  }
}
