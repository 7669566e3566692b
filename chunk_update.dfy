/**
 * The Chunk Updater's rules as functions: the transition of one block, the
 * effect of one pass over a chunk, the effect of a sequence of passes, and
 * what those rules guarantee.
 */
module ChunkUpdate {
  import opened Levels
  import opened Blocks

  /** One block at height y after one visit of the updater. A rising candidate
      at or below the sea line floods when the sea is above normal and no
      repair is in progress; a falling candidate dries out when repairing
      (except on the base layer) or when the effect owns it and it lies above
      the sea line or the sea is back to normal; anything else only loses its
      tag. */
  function Transition(tables: Tables, t: Thresholds, isOverride: bool, y: int, cell: Cell): (r: Cell)
    ensures r == cell || r == cell.(tagged := false) || r == Cell(Water, true) || r == Cell(Air, false)
    ensures r.tagged ==>
      r == cell ||
      (r == Cell(Water, true) && Classify(tables, cell.material) == RisingCandidate &&
       t.delta > 0 && y <= t.custom && !isOverride)
    ensures r.material != cell.material ==> Classify(tables, cell.material) != Other
    ensures !isOverride && !cell.tagged && Classify(tables, cell.material) == FallingCandidate ==> r == cell
  {
    match Classify(tables, cell.material)
    case RisingCandidate =>
      if t.delta > 0 && y <= t.custom && !isOverride then Cell(Water, true) else cell
    case FallingCandidate =>
      if (isOverride && y != t.base) || (cell.tagged && (y > t.custom || t.delta == 0))
      then Cell(Air, false) else cell
    case Other =>
      cell.(tagged := false)
  }

  /** Whether the column (x, z) of `s` is subject to the effect. */
  predicate Impacted(tables: Tables, s: Snapshot, x: int, z: int)
    requires 0 <= x < 16 && 0 <= z < 16
  {
    s.biomes[x][z] !in tables.unimpactedBiomes
  }

  /** Whether the updater visits `p` when it processes `s` with thresholds `t`:
      `p` is in the chunk, its column is impacted, and base <= y < max. */
  predicate InScan(tables: Tables, s: Snapshot, t: Thresholds, p: Loc)
  {
    InChunk(s, p) &&
    Impacted(tables, s, p.x - 16 * s.chunkX, p.z - 16 * s.chunkZ) &&
    t.base <= p.y < t.max
  }

  /** The live blocks after one pass of the updater over the chunk of `s`. */
  function ChunkPass(tables: Tables, s: Snapshot, t: Thresholds, isOverride: bool, cells: map<Loc, Cell>): (r: map<Loc, Cell>)
    ensures r.Keys == cells.Keys
    ensures forall p :: p in cells && !InScan(tables, s, t, p) ==> r[p] == cells[p]
    ensures forall p :: p in cells && r[p].tagged && !cells[p].tagged ==>
      InScan(tables, s, t, p) && r[p] == Cell(Water, true) && p.y <= t.custom && t.delta > 0 && !isOverride
  {
    map p | p in cells :: if InScan(tables, s, t, p) then Transition(tables, t, isOverride, p.y, cells[p]) else cells[p]
  }

  // ---------------------------------------------------------------------------
  // The rules, block by block

  /** The scan frame: a pass changes no block outside the scanned columns and
      layers, keeps the set of blocks, and changes nothing at all when the
      maximum does not lie above the base. */
  lemma ScanFrame(tables: Tables, s: Snapshot, t: Thresholds, isOverride: bool, cells: map<Loc, Cell>)
    ensures var r := ChunkPass(tables, s, t, isOverride, cells);
      r.Keys == cells.Keys &&
      (forall p :: p in cells && !InScan(tables, s, t, p) ==> r[p] == cells[p]) &&
      (t.max <= t.base ==> r == cells)
  {
  }

  /** Biome exclusion: no block of a column whose biome is unimpacted is
      changed, whatever the thresholds and the repair flag. */
  lemma UnimpactedColumnUntouched(tables: Tables, s: Snapshot, t: Thresholds, isOverride: bool, cells: map<Loc, Cell>,
                                  x: int, z: int, y: int)
    requires 0 <= x < 16 && 0 <= z < 16 && !Impacted(tables, s, x, z)
    requires BlockAt(s, x, y, z) in cells
    ensures ChunkPass(tables, s, t, isOverride, cells)[BlockAt(s, x, y, z)] == cells[BlockAt(s, x, y, z)]
  {
  }

  /** No organic drain: with no repair in progress, an untagged falling
      candidate keeps its material and its (absent) tag, whatever the
      thresholds. */
  lemma NoOrganicDrain(tables: Tables, s: Snapshot, t: Thresholds, cells: map<Loc, Cell>, p: Loc)
    requires p in cells && !cells[p].tagged
    requires Classify(tables, cells[p].material) == FallingCandidate
    ensures ChunkPass(tables, s, t, false, cells)[p] == cells[p]
  {
  }

  /** The rise rule: a scanned rising candidate at or below the sea line
      becomes tagged water exactly when the delta is positive and no repair is
      in progress; otherwise it is left as it was, tag included. Above the sea
      line it is always left as it was. */
  lemma RiseRule(tables: Tables, s: Snapshot, t: Thresholds, isOverride: bool, cells: map<Loc, Cell>, p: Loc)
    requires p in cells && InScan(tables, s, t, p)
    requires Classify(tables, cells[p].material) == RisingCandidate
    ensures var r := ChunkPass(tables, s, t, isOverride, cells);
      (p.y <= t.custom && t.delta > 0 && !isOverride ==> r[p] == Cell(Water, true)) &&
      (!(p.y <= t.custom && t.delta > 0 && !isOverride) ==> r[p] == cells[p])
  {
  }

  /** The fall rule: a scanned falling candidate becomes untagged air exactly
      when repair is in progress and it is not on the base layer, or it is
      tagged and lies above the sea line or the delta is zero; otherwise it is
      left as it was. */
  lemma FallRule(tables: Tables, s: Snapshot, t: Thresholds, isOverride: bool, cells: map<Loc, Cell>, p: Loc)
    requires p in cells && InScan(tables, s, t, p)
    requires Classify(tables, cells[p].material) == FallingCandidate
    ensures var r := ChunkPass(tables, s, t, isOverride, cells);
      var dries := (isOverride && p.y != t.base) || (cells[p].tagged && (p.y > t.custom || t.delta == 0));
      (dries ==> r[p] == Cell(Air, false)) && (!dries ==> r[p] == cells[p])
  {
  }

  /** A scanned block in neither category keeps its material and loses its
      tag. */
  lemma OtherRule(tables: Tables, s: Snapshot, t: Thresholds, isOverride: bool, cells: map<Loc, Cell>, p: Loc)
    requires p in cells && InScan(tables, s, t, p)
    requires Classify(tables, cells[p].material) == Other
    ensures ChunkPass(tables, s, t, isOverride, cells)[p] == Cell(cells[p].material, false)
  {
  }

  // ---------------------------------------------------------------------------
  // Idempotence and reversibility

  /** A second visit with the same thresholds and repair flag leaves a block
      as the first visit left it, provided WATER is classified as a rising or
      a falling candidate. */
  lemma TransitionIdempotent(tables: Tables, t: Thresholds, isOverride: bool, y: int, cell: Cell)
    requires Water in tables.replaceOnRise || Water in tables.replaceOnFall
    ensures var once := Transition(tables, t, isOverride, y, cell);
      Transition(tables, t, isOverride, y, once) == once
  {
    var once := Transition(tables, t, isOverride, y, cell);
    match Classify(tables, cell.material)
    case RisingCandidate =>
      if t.delta > 0 && y <= t.custom && !isOverride {
        assert once == Cell(Water, true);
      }
    case FallingCandidate =>
    case Other =>
  }

  /** A second pass over a chunk with unchanged thresholds and repair flag
      changes nothing. */
  lemma SecondPassChangesNothing(tables: Tables, s: Snapshot, t: Thresholds, isOverride: bool, cells: map<Loc, Cell>)
    requires Water in tables.replaceOnRise || Water in tables.replaceOnFall
    ensures var once := ChunkPass(tables, s, t, isOverride, cells);
      ChunkPass(tables, s, t, isOverride, once) == once
  {
    var once := ChunkPass(tables, s, t, isOverride, cells);
    var twice := ChunkPass(tables, s, t, isOverride, once);
    forall p | p in once
      ensures twice[p] == once[p]
    {
      if InScan(tables, s, t, p) {
        TransitionIdempotent(tables, t, isOverride, p.y, cells[p]);
      }
    }
  }

  /** Reversibility: water the effect put on a scanned layer is turned back
      into untagged air by the next pass once the delta is zero or the block
      lies above the sea line, with no repair in progress. */
  lemma Reversibility(tables: Tables, s: Snapshot, t: Thresholds, cells: map<Loc, Cell>, p: Loc)
    requires SourceTables(tables)
    requires p in cells && InScan(tables, s, t, p) && cells[p] == Cell(Water, true)
    requires t.delta == 0 || p.y > t.custom
    ensures ChunkPass(tables, s, t, false, cells)[p] == Cell(Air, false)
  {
  }

  // ---------------------------------------------------------------------------
  // Sequences of passes

  /** One chunk update: the snapshot and the thresholds it was run with. */
  datatype Pass = Pass(snapshot: Snapshot, thresholds: Thresholds)

  /** The live blocks after running `passes` in order with the same repair
      flag. The passes keep the set of blocks, and a block no pass scans is
      never changed. */
  function Passes(tables: Tables, isOverride: bool, passes: seq<Pass>, cells: map<Loc, Cell>): (r: map<Loc, Cell>)
    ensures r.Keys == cells.Keys
    ensures forall p :: p in cells && (forall i :: 0 <= i < |passes| ==> !InScan(tables, passes[i].snapshot, passes[i].thresholds, p)) ==>
      r[p] == cells[p]
    decreases |passes|
  {
    if passes == [] then cells
    else
      var last := passes[|passes| - 1];
      ChunkPass(tables, last.snapshot, last.thresholds, isOverride, Passes(tables, isOverride, passes[..|passes| - 1], cells))
  }

  /** Running one more pass after a sequence applies that pass to the
      result of the sequence. */
  lemma PassesSnoc(tables: Tables, isOverride: bool, passes: seq<Pass>, next: Pass, cells: map<Loc, Cell>)
    ensures Passes(tables, isOverride, passes + [next], cells) ==
            ChunkPass(tables, next.snapshot, next.thresholds, isOverride, Passes(tables, isOverride, passes, cells))
  {
    assert (passes + [next])[..|passes|] == passes;
  }

  /** No organic drain over any number of passes with any snapshots and any
      thresholds: an untagged falling candidate is never changed while no
      repair is in progress. */
  lemma {:induction false} NoOrganicDrainEver(tables: Tables, passes: seq<Pass>, cells: map<Loc, Cell>, p: Loc)
    requires p in cells && !cells[p].tagged
    requires Classify(tables, cells[p].material) == FallingCandidate
    ensures var r := Passes(tables, false, passes, cells); p in r && r[p] == cells[p]
    decreases |passes|
  {
    if passes != [] {
      var last := passes[|passes| - 1];
      var before := Passes(tables, false, passes[..|passes| - 1], cells);
      NoOrganicDrainEver(tables, passes[..|passes| - 1], cells, p);
      NoOrganicDrain(tables, last.snapshot, last.thresholds, before, p);
    }
  }

  /** The scenario of a world with sea level 62 and floor 62 whose
      distribution gives 0 at temperature 0 and 3 at the maximum temperature
      10: at temperature 10 the air on layers 62 to 64 becomes tagged water,
      at temperature 0 it reverts to untagged air, and untagged water on layer
      61 is left alone throughout. */
  lemma WarmThenCool(tables: Tables, s: Snapshot, cells: map<Loc, Cell>, x: int, z: int, y: int)
    requires SourceTables(tables)
    requires 0 <= x < 16 && 0 <= z < 16 && Impacted(tables, s, x, z)
    requires 62 <= y <= 64
    requires BlockAt(s, x, y, z) in cells && cells[BlockAt(s, x, y, z)] == Cell(Air, false)
    requires BlockAt(s, x, 61, z) in cells && cells[BlockAt(s, x, 61, z)] == Cell(Water, false)
    ensures var warm := ChunkPass(tables, s, ChunkThresholds(62, 62, 3, 3), false, cells);
      var cool := ChunkPass(tables, s, ChunkThresholds(62, 62, 0, 3), false, warm);
      warm[BlockAt(s, x, y, z)] == Cell(Water, true) && cool[BlockAt(s, x, y, z)] == Cell(Air, false) &&
      warm[BlockAt(s, x, 61, z)] == Cell(Water, false) && cool[BlockAt(s, x, 61, z)] == Cell(Water, false)
  {
    var p, q := BlockAt(s, x, y, z), BlockAt(s, x, 61, z);
    var hot, cold := ChunkThresholds(62, 62, 3, 3), ChunkThresholds(62, 62, 0, 3);
    assert InScan(tables, s, hot, p) && InScan(tables, s, cold, p);
    var warm := ChunkPass(tables, s, hot, false, cells);
    RiseRule(tables, s, hot, false, cells, p);
    Reversibility(tables, s, cold, warm, p);
    NoOrganicDrain(tables, s, hot, cells, q);
    NoOrganicDrain(tables, s, cold, warm, q);
  }

  // ---------------------------------------------------------------------------
  // The updater's progress through a chunk, for the loop invariants of the
  // method that performs a pass in place

  /** Whether the triple loop, standing at column (x, z) and layer y, has
      already visited `p`. */
  ghost predicate Visited(s: Snapshot, p: Loc, x: int, z: int, y: int)
  {
    var lx, lz := p.x - 16 * s.chunkX, p.z - 16 * s.chunkZ;
    lx < x || (lx == x && lz < z) || (lx == x && lz == z && p.y < y)
  }

  /** The live blocks once the loop has reached column (x, z) and layer y. */
  ghost function PartialPass(tables: Tables, s: Snapshot, t: Thresholds, isOverride: bool, cells: map<Loc, Cell>,
                             x: int, z: int, y: int): map<Loc, Cell>
  {
    map p | p in cells ::
      if InScan(tables, s, t, p) && Visited(s, p, x, z, y) then Transition(tables, t, isOverride, p.y, cells[p]) else cells[p]
  }

  lemma PartialStart(tables: Tables, s: Snapshot, t: Thresholds, isOverride: bool, cells: map<Loc, Cell>)
    ensures PartialPass(tables, s, t, isOverride, cells, 0, 0, t.base) == cells
  {
  }

  /** Visiting the block at (x, y, z) advances the loop by one layer. */
  lemma PartialVisit(tables: Tables, s: Snapshot, t: Thresholds, isOverride: bool, cells: map<Loc, Cell>,
                     x: int, z: int, y: int)
    requires 0 <= x < 16 && 0 <= z < 16 && Impacted(tables, s, x, z) && t.base <= y < t.max
    ensures var m := PartialPass(tables, s, t, isOverride, cells, x, z, y);
      var p := BlockAt(s, x, y, z);
      var next := PartialPass(tables, s, t, isOverride, cells, x, z, y + 1);
      (p in m ==> m[p] == cells[p] && m[p := Transition(tables, t, isOverride, y, m[p])] == next) &&
      (p !in m ==> m == next)
  {
    var m := PartialPass(tables, s, t, isOverride, cells, x, z, y);
    var p := BlockAt(s, x, y, z);
    var next := PartialPass(tables, s, t, isOverride, cells, x, z, y + 1);
    assert InScan(tables, s, t, p);
    forall q | q in cells && q != p && InScan(tables, s, t, q)
      ensures Visited(s, q, x, z, y) <==> Visited(s, q, x, z, y + 1)
    {
    }
  }

  /** Leaving a column whose layers have all been visited, or whose biome is
      unimpacted, starts the next column at the base. */
  lemma PartialNextColumn(tables: Tables, s: Snapshot, t: Thresholds, isOverride: bool, cells: map<Loc, Cell>,
                          x: int, z: int, y: int)
    requires 0 <= x < 16 && 0 <= z < 16
    requires !Impacted(tables, s, x, z) || y >= t.max
    ensures PartialPass(tables, s, t, isOverride, cells, x, z, y) ==
            PartialPass(tables, s, t, isOverride, cells, x, z + 1, t.base)
  {
    var a := PartialPass(tables, s, t, isOverride, cells, x, z, y);
    var b := PartialPass(tables, s, t, isOverride, cells, x, z + 1, t.base);
    forall q | q in cells
      ensures a[q] == b[q]
    {
      if InScan(tables, s, t, q) {
        assert Visited(s, q, x, z, y) <==> Visited(s, q, x, z + 1, t.base);
      }
    }
  }

  /** Leaving a row of columns starts the next row. */
  lemma PartialNextRow(tables: Tables, s: Snapshot, t: Thresholds, isOverride: bool, cells: map<Loc, Cell>, x: int)
    ensures PartialPass(tables, s, t, isOverride, cells, x, 16, t.base) ==
            PartialPass(tables, s, t, isOverride, cells, x + 1, 0, t.base)
  {
    var a := PartialPass(tables, s, t, isOverride, cells, x, 16, t.base);
    var b := PartialPass(tables, s, t, isOverride, cells, x + 1, 0, t.base);
    forall q | q in cells
      ensures a[q] == b[q]
    {
      if InScan(tables, s, t, q) {
        assert Visited(s, q, x, 16, t.base) <==> Visited(s, q, x + 1, 0, t.base);
      }
    }
  }

  /** Once all 16 rows are done the loop has performed a whole pass. */
  lemma PartialDone(tables: Tables, s: Snapshot, t: Thresholds, isOverride: bool, cells: map<Loc, Cell>)
    ensures PartialPass(tables, s, t, isOverride, cells, 16, 0, t.base) == ChunkPass(tables, s, t, isOverride, cells)
  {
  }
}
