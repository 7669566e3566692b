/**
 * The world as the sea-level effect sees it: materials and their static
 * classification, the per-block ownership tag, block locations, biomes and
 * chunk snapshots.
 */
module Blocks {

  /** A block material. AIR and WATER are the two the effect writes; every
      other material is known only by its name. */
  datatype Material = Air | Water | Named(name: string)

  /** A live block: its material and whether it carries the ownership tag
      that marks water the effect created or maintains. */
  datatype Cell = Cell(material: Material, tagged: bool)

  type Biome = string

  /** The three static sets the effect is configured with: the materials sea
      water may overwrite, the materials that may revert to air, and the
      biomes the effect never touches. How the source fills them by matching
      enum names is not modelled; only membership is used. */
  datatype Tables = Tables(
    replaceOnRise: set<Material>,
    replaceOnFall: set<Material>,
    unimpactedBiomes: set<Biome>
  )

  datatype Category = RisingCandidate | FallingCandidate | Other

  /** The category of a material; the rising set is consulted first, so a
      material in both sets is a rising candidate. */
  function Classify(tables: Tables, m: Material): (k: Category)
    ensures k == RisingCandidate <==> m in tables.replaceOnRise
    ensures k == FallingCandidate <==> m !in tables.replaceOnRise && m in tables.replaceOnFall
    ensures k == Other <==> m !in tables.replaceOnRise && m !in tables.replaceOnFall
  {
    if m in tables.replaceOnRise then RisingCandidate
    else if m in tables.replaceOnFall then FallingCandidate
    else Other
  }

  /** What the source's tables satisfy and some lemmas rely on: AIR may be
      flooded, WATER may be drained, and WATER is not itself floodable. */
  predicate SourceTables(tables: Tables): (ok: bool)
    ensures ok ==> Classify(tables, Air) == RisingCandidate && Classify(tables, Water) == FallingCandidate
  {
    Air in tables.replaceOnRise && Water in tables.replaceOnFall && Water !in tables.replaceOnRise
  }

  /** A block location: the world's name and the block coordinates. */
  datatype Loc = Loc(world: string, x: int, y: int, z: int)

  /** The chunk coordinate of a block coordinate; `/` by a positive divisor
      floors, as the arithmetic shift `>> 4` does. */
  function ChunkCoord(v: int): (c: int)
    ensures 16 * c <= v < 16 * c + 16
  {
    v / 16
  }

  /** The biome of each of the 16 x 16 columns of a chunk, indexed [x][z]. */
  type BiomeGrid = g: seq<seq<Biome>> | |g| == 16 && forall x :: 0 <= x < 16 ==> |g[x]| == 16
    witness seq(16, _ => seq(16, _ => ""))

  /** A snapshot taken when a chunk was queued: its world, its chunk
      coordinates and its biomes. Blocks are read from the live grid, not from
      the snapshot. */
  datatype Snapshot = Snapshot(world: string, chunkX: int, chunkZ: int, biomes: BiomeGrid)

  /** Whether `p` lies in the chunk `s` was taken of. */
  predicate InChunk(s: Snapshot, p: Loc)
  {
    p.world == s.world &&
    16 * s.chunkX <= p.x < 16 * s.chunkX + 16 &&
    16 * s.chunkZ <= p.z < 16 * s.chunkZ + 16
  }

  /** The block of `s`'s chunk at local column (x, z) and height y: for a
      column inside the chunk it lies in the chunk, at that height and at
      that offset from the chunk's corner. */
  function BlockAt(s: Snapshot, x: int, y: int, z: int): (p: Loc)
    ensures 0 <= x < 16 && 0 <= z < 16 ==>
      InChunk(s, p) && p.y == y && p.x - 16 * s.chunkX == x && p.z - 16 * s.chunkZ == z
  {
    Loc(s.world, 16 * s.chunkX + x, y, 16 * s.chunkZ + z)
  }

  /** The snapshot's chunk is the chunk the flow handler computes by shifting
      block coordinates. */
  lemma InChunkByCoord(s: Snapshot, p: Loc)
    ensures InChunk(s, p) <==>
      p.world == s.world && ChunkCoord(p.x) == s.chunkX && ChunkCoord(p.z) == s.chunkZ
  {
  }

  function Abs(v: int): nat
  {
    if v < 0 then -v else v
  }

  /** The number of unit steps between two locations of one world. */
  function Distance(p: Loc, q: Loc): nat
  {
    Abs(q.x - p.x) + Abs(q.y - p.y) + Abs(q.z - p.z)
  }

  /** The six faces a bucket can be emptied against. */
  datatype Face = North | South | East | West | Up | Down

  /** The block next to `p` in the direction of `face` (Block.getRelative). */
  function Relative(p: Loc, face: Face): (q: Loc)
    ensures q.world == p.world
    ensures Distance(p, q) == 1
  {
    match face
    case North => p.(z := p.z - 1)
    case South => p.(z := p.z + 1)
    case East => p.(x := p.x + 1)
    case West => p.(x := p.x - 1)
    case Up => p.(y := p.y + 1)
    case Down => p.(y := p.y - 1)
  }
}
