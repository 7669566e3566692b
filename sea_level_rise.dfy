/**
 * The sea-level effect itself: its request queue and repair flag, the two
 * periodic jobs (the queue loader and the debounced chunk updater), the chunk
 * update performed in place on the live blocks, and the event handlers.
 */
module SeaLevelRiseEffect {
  import opened Levels
  import opened Blocks
  import opened ChunkUpdate
  import opened Flow
  import opened RequestQueue

  /** The live blocks of every loaded world, with their ownership tags. A
      location absent from the map holds no block the effect could change. */
  class LiveGrid {
    var cells: map<Loc, Cell>

    constructor (cells: map<Loc, Cell>)
      ensures this.cells == cells
    {
      this.cells := cells;
    }
  }

  /** What the world and climate-engine lookups give for a world when one of
      its chunks is processed: the world's sea level and the current delta. */
  datatype WorldReading = WorldReading(seaLevel: int, delta: int)

  /** The passes a batch performs: each snapshot with the thresholds of its
      world. */
  function PassesFor(batch: seq<Snapshot>, reading: string -> WorldReading, baseSeaLevel: int, maxDelta: int): (ps: seq<Pass>)
    ensures |ps| == |batch|
    ensures forall i :: 0 <= i < |batch| ==> ps[i].snapshot == batch[i]
    ensures forall i :: 0 <= i < |batch| ==>
      ps[i].thresholds == ChunkThresholds(reading(batch[i].world).seaLevel, baseSeaLevel, reading(batch[i].world).delta, maxDelta)
  {
    seq(|batch|, i requires 0 <= i < |batch| =>
      Pass(batch[i], ChunkThresholds(reading(batch[i].world).seaLevel, baseSeaLevel, reading(batch[i].world).delta, maxDelta)))
  }

  /** The passes of a longer prefix of a batch: one more pass with the next
      snapshot's thresholds. */
  lemma PassesForSnoc(batch: seq<Snapshot>, i: nat, reading: string -> WorldReading, baseSeaLevel: int, maxDelta: int)
    requires i < |batch|
    ensures PassesFor(batch[..i + 1], reading, baseSeaLevel, maxDelta) ==
            PassesFor(batch[..i], reading, baseSeaLevel, maxDelta) +
            [Pass(batch[i], ChunkThresholds(reading(batch[i].world).seaLevel, baseSeaLevel, reading(batch[i].world).delta, maxDelta))]
  {
  }

  class SeaLevelRise {
    const tables: Tables
    var requestQueue: seq<Snapshot>
    var isOverride: bool
    var baseSeaLevel: int
    var chunksPerPeriod: int

    /** A fresh effect: empty queue, no repair in progress, and the
        configuration the model would have loaded. */
    constructor (tables: Tables, baseSeaLevel: int, chunksPerPeriod: int)
      ensures this.tables == tables && requestQueue == [] && !isOverride
      ensures this.baseSeaLevel == baseSeaLevel && this.chunksPerPeriod == chunksPerPeriod
    {
      this.tables := tables;
      requestQueue := [];
      isOverride := false;
      this.baseSeaLevel := baseSeaLevel;
      this.chunksPerPeriod := chunksPerPeriod;
    }

    method SetOverride(value: bool)
      modifies this`isOverride
      ensures isOverride == value
    {
      isOverride := value;
    }

    /** One run of the queue loader: only an empty queue is refilled, with one
        snapshot per loaded chunk of every eligible world, world by world in
        the order given. */
    method LoadQueue(worlds: seq<LoadedWorld>)
      modifies this`requestQueue
      ensures requestQueue == if old(requestQueue) == [] then Refill(worlds) else old(requestQueue)
    {
      if requestQueue == [] {
        var i := 0;
        while i < |worlds|
          invariant 0 <= i <= |worlds|
          invariant requestQueue == Refill(worlds[..i])
        {
          var world := worlds[i];
          if Eligible(world) {
            var j := 0;
            while j < |world.chunks|
              invariant 0 <= j <= |world.chunks|
              invariant requestQueue == Refill(worlds[..i]) + world.chunks[..j]
            {
              requestQueue := requestQueue + [world.chunks[j]];
              j := j + 1;
            }
          }
          assert worlds[..i + 1][..i] == worlds[..i];
          i := i + 1;
        }
        assert worlds[..|worlds|] == worlds;
      }
    }

    /** One run of the debounced updater: up to `chunksPerPeriod` snapshots
        are taken from the front of the queue, then each is applied to the
        live blocks in order. An empty queue gives no batch and no work. */
    method DebounceChunkUpdates(grid: LiveGrid, reading: string -> WorldReading, maxDelta: int)
      modifies this`requestQueue, grid
      ensures var k := BatchSize(|old(requestQueue)|, chunksPerPeriod);
        requestQueue == old(requestQueue)[k..] &&
        grid.cells == Passes(tables, isOverride, PassesFor(old(requestQueue)[..k], reading, baseSeaLevel, maxDelta), old(grid.cells))
    {
      ghost var queued := requestQueue;
      var chunkSnapshots: seq<Snapshot> := [];
      if requestQueue != [] {
        while |chunkSnapshots| < chunksPerPeriod && requestQueue != []
          invariant chunkSnapshots + requestQueue == queued
          invariant grid.cells == old(grid.cells)
          invariant |chunkSnapshots| <= BatchSize(|queued|, chunksPerPeriod)
          decreases |requestQueue|
        {
          chunkSnapshots := chunkSnapshots + [requestQueue[0]];
          requestQueue := requestQueue[1..];
        }
      }
      assert |chunkSnapshots| == BatchSize(|queued|, chunksPerPeriod);
      assert chunkSnapshots == queued[..|chunkSnapshots|] && requestQueue == queued[|chunkSnapshots|..];

      ghost var start := grid.cells;
      var i := 0;
      while i < |chunkSnapshots|
        invariant 0 <= i <= |chunkSnapshots|
        invariant requestQueue == queued[|chunkSnapshots|..]
        invariant grid.cells == Passes(tables, isOverride, PassesFor(chunkSnapshots[..i], reading, baseSeaLevel, maxDelta), start)
      {
        var snapshot := chunkSnapshots[i];
        var world := reading(snapshot.world);
        ghost var ps := PassesFor(chunkSnapshots[..i], reading, baseSeaLevel, maxDelta);
        ghost var next := Pass(snapshot, ChunkThresholds(world.seaLevel, baseSeaLevel, world.delta, maxDelta));
        UpdateChunk(snapshot, grid, world.seaLevel, world.delta, maxDelta);
        PassesForSnoc(chunkSnapshots, i, reading, baseSeaLevel, maxDelta);
        PassesSnoc(tables, isOverride, ps, next, start);
        i := i + 1;
      }
      assert chunkSnapshots[..i] == chunkSnapshots;
    }

    /** One chunk update, in place on the live blocks: every column of the
        chunk whose biome is impacted, layers base <= y < max, each block
        changed as Transition says. */
    method UpdateChunk(snapshot: Snapshot, grid: LiveGrid, worldSeaLevel: int, delta: int, maxDelta: int)
      modifies grid
      ensures grid.cells ==
        ChunkPass(tables, snapshot, ChunkThresholds(worldSeaLevel, baseSeaLevel, delta, maxDelta), isOverride, old(grid.cells))
    {
      var t := ChunkThresholds(worldSeaLevel, baseSeaLevel, delta, maxDelta);
      ghost var start := grid.cells;
      PartialStart(tables, snapshot, t, isOverride, start);
      var x := 0;
      while x < 16
        invariant 0 <= x <= 16
        invariant grid.cells == PartialPass(tables, snapshot, t, isOverride, start, x, 0, t.base)
      {
        var z := 0;
        while z < 16
          invariant 0 <= z <= 16
          invariant grid.cells == PartialPass(tables, snapshot, t, isOverride, start, x, z, t.base)
        {
          if snapshot.biomes[x][z] !in tables.unimpactedBiomes {
            var y := t.base;
            while y < t.max
              invariant t.base <= y
              invariant grid.cells == PartialPass(tables, snapshot, t, isOverride, start, x, z, y)
            {
              PartialVisit(tables, snapshot, t, isOverride, start, x, z, y);
              var p := BlockAt(snapshot, x, y, z);
              if p in grid.cells {
                grid.cells := grid.cells[p := Transition(tables, t, isOverride, y, grid.cells[p])];
              }
              y := y + 1;
            }
            PartialNextColumn(tables, snapshot, t, isOverride, start, x, z, y);
          } else {
            PartialNextColumn(tables, snapshot, t, isOverride, start, x, z, t.base);
          }
          z := z + 1;
        }
        PartialNextRow(tables, snapshot, t, isOverride, start, x);
        x := x + 1;
      }
      PartialDone(tables, snapshot, t, isOverride, start);
    }

    /** A flow from `source` to `dest` in a world of sea level
        `worldSeaLevel`: returns whether the flow is cancelled; when it goes
        ahead from a tagged source the destination is tagged. */
    method OnBlockFromTo(grid: LiveGrid, source: Loc, dest: Loc, worldSeaLevel: int, delta: int, maxDelta: int)
      returns (cancelled: bool)
      modifies grid
      ensures var outcome := FlowDecision(source in old(grid.cells) && old(grid.cells)[source].tagged, isOverride,
                                          source, dest, FlowThresholds(worldSeaLevel, baseSeaLevel, delta, maxDelta));
        cancelled == (outcome == Cancelled) && grid.cells == ApplyFlow(outcome, dest, old(grid.cells))
    {
      cancelled := false;
      if source in grid.cells && grid.cells[source].tagged {
        var t := FlowThresholds(worldSeaLevel, baseSeaLevel, delta, maxDelta);
        var outcome := FlowDecision(true, isOverride, source, dest, t);
        if outcome == Cancelled {
          cancelled := true;
        } else if dest in grid.cells {
          grid.cells := grid.cells[dest := grid.cells[dest].(tagged := true)];
        }
      }
    }

    /** Placing a block releases its ownership. */
    method OnBlockPlace(grid: LiveGrid, placed: Loc)
      modifies grid
      ensures grid.cells == ClearTag(old(grid.cells), placed)
    {
      if placed in grid.cells {
        grid.cells := grid.cells[placed := grid.cells[placed].(tagged := false)];
      }
    }

    /** Emptying a bucket against a face of `clicked` releases ownership of
        the block next to it on that side. */
    method OnPlayerBucketEmpty(grid: LiveGrid, clicked: Loc, face: Face)
      modifies grid
      ensures grid.cells == ClearTag(old(grid.cells), Relative(clicked, face))
    {
      var adjacent := Relative(clicked, face);
      if adjacent in grid.cells {
        grid.cells := grid.cells[adjacent := grid.cells[adjacent].(tagged := false)];
      }
    }
  }
}
