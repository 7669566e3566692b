# Sea-level rise, modelled in Dafny

This project models the core of the `SeaLevelRise` climate effect of the
GlobalWarming server plugin. The effect raises and lowers the sea on loaded
chunks as the world's temperature changes, and it must never dry out water
it did not create. Each block the effect floods gets an ownership tag. Only
tagged water is drained when the sea falls.

The model covers these parts of the effect:

- **Level Resolver** (`levels.dfy`, module `Levels`). It computes the base
  layer, the current sea line and the maximum height, in the two ways the
  source does. The chunk updater uses `max(seaLevel - 1, floor)`. The flow
  handler uses `max(floor, seaLevel) - 1`.
- **Blocks** (`blocks.dfy`, module `Blocks`). This is the vocabulary of the
  model:
  - materials (`Air`, `Water`, any other by name);
  - a live block as `Cell(material, tagged)`;
  - the three static tables (flood set, drain set, unimpacted biomes) as
    abstract sets;
  - classification with the flood set checked first;
  - block locations, 16 x 16 chunk snapshots with their biomes, and
    `getRelative`.
- **Chunk Updater** (`chunk_update.dfy`, module `ChunkUpdate`). `Transition`
  is the rule for one block. `ChunkPass` is one whole pass over a chunk, and
  `Passes` is a sequence of passes. The lemmas state the rise, fall and
  "other" rules, the scan frame, no organic drain (for one pass and for any
  number of passes), idempotence of a second pass, reversibility, and a
  warm-then-cool scenario.
- **Flow Propagation Controller and tag hooks** (`flow.dfy`, module `Flow`).
  This covers `isSameChunk`, the flow decision (ignore, cancel, or tag the
  destination), and tag clearing on block placement and on bucket emptying.
- **Request queue** (`request_queue.dfy`, module `RequestQueue`). It defines
  which snapshots a refill appends and how many snapshots a drain takes.
- **The effect** (`sea_level_rise.dfy`, module `SeaLevelRiseEffect`):
  - class `LiveGrid` holds the live blocks of every world as a
    `map<Loc, Cell>`, which the effect changes in place;
  - class `SeaLevelRise` holds the request queue, the repair (override) flag
    and the configuration;
  - methods: the queue loader's run, the debounced updater's run (drain, then
    process), `UpdateChunk` as the triple `x`/`z`/`y` loop, and the three
    event handlers.

Each method is proved against the specification functions above.

Some behaviour of the source is worth stating plainly. The model follows
the code in each case:

- With override (repair) on, the flow handler starts from
  `isWaterFixed = isOverride` and then cancels the event
  (`SeaLevelRise.java:237`, `254-255`). So every flow from a tagged block is
  cancelled while a repair is in progress.
- The class Javadoc promises that the effect "will not dry out lakes,
  rivers, irrigation" (`SeaLevelRise.java:42`). During repair, though, the
  updater turns every falling candidate in the scanned layers into air except
  on the base layer, whether tagged or not (`SeaLevelRise.java:194`). So "no
  organic drain" holds only while no repair is in progress, and
  `NoOrganicDrain` requires that.
- The updater reads blocks from the live world, not from the snapshot. The
  snapshot supplies only the world name, the chunk coordinates and the
  biomes.
- When the configured floor is at or above the world's sea level, the flow
  handler's base is one layer below the updater's. `SeaLineFlowAgainstFloor`
  shows a consequence: with override off, tagged water on the updater's sea
  line cannot spread sideways within a chunk in that configuration, as long
  as that layer lies below the flow handler's maximum (delta < maxDelta - 1).
  When the sea line is the updater's top scanned layer
  (delta == maxDelta - 1), tagged water there spreads sideways within a chunk
  and tags its destination with override off, wherever the floor lies
  (`SeaLineFlowAtTop`). With override on, every such flow is cancelled.

## Model

| member | source | states |
|---|---|---|
| Levels.ChunkThresholds | src/main/java/net/porillo/effect/negative/SeaLevelRise.java:161-164 | The base is the larger of the world's sea level minus one and the floor (at least each, equal to one). The sea line is base + delta and the maximum is base + maxDelta. |
| Levels.FlowThresholds | src/main/java/net/porillo/effect/negative/SeaLevelRise.java:241-244 | The base plus one is the larger of the floor and the world's sea level. The sea line and maximum are offset from that base by delta and maxDelta. |
| Levels.FlowBaseAgainstChunkBase | src/main/java/net/porillo/effect/negative/SeaLevelRise.java:241 | The flow thresholds equal the updater's when the floor is below the world's sea level. Otherwise base, sea line and maximum are all exactly one lower. |
| Blocks.Classify | src/main/java/net/porillo/effect/negative/SeaLevelRise.java:186-206 | A material is a rising candidate iff it is in the flood set. It is a falling candidate iff it is in the drain set but not the flood set. Otherwise it is in neither category. |
| Blocks.SourceTables | src/main/java/net/porillo/effect/negative/SeaLevelRise.java:68-85 | The facts the source's tables give: AIR is in the flood set, WATER is in the drain set, and WATER is not floodable (the flower/sapling/seed name loop does not match it). Whenever they hold, AIR classifies as a rising candidate and WATER as a falling candidate. |
| Blocks.InChunkByCoord | src/main/java/net/porillo/effect/negative/SeaLevelRise.java:185 | A block lies in the chunk the updater fetches for a snapshot iff its shifted coordinates are the snapshot's chunk coordinates (and the world matches). |
| Blocks.ChunkCoord | src/main/java/net/porillo/effect/negative/SeaLevelRise.java:262-264 | The chunk coordinate of a block coordinate is the c with 16c <= v < 16c + 16 (the arithmetic shift by four, which floors for negative coordinates). |
| Blocks.BlockAt | src/main/java/net/porillo/effect/negative/SeaLevelRise.java:185 | For a chunk-relative x and z in 0..15, the block fetched for a snapshot lies in the snapshot's chunk, at layer y, with the given offsets from the chunk's corner. |
| Blocks.Relative | src/main/java/net/porillo/effect/negative/SeaLevelRise.java:226 | The block next to the clicked one in the face's direction is in the same world, exactly one unit step away. |
| ChunkUpdate.Transition | src/main/java/net/porillo/effect/negative/SeaLevelRise.java:186-206 | One block's rule yields the block unchanged, its tag cleared, tagged water or untagged air. A block ends tagged only if it was tagged already or it is a rising candidate flooded with tagged water (delta > 0, y <= sea line, override off). Only rising and falling candidates change material. With override off an untagged falling candidate is never changed. |
| ChunkUpdate.ChunkPass | src/main/java/net/porillo/effect/negative/SeaLevelRise.java:167-207 | A pass keeps the set of blocks, changes no block outside the scanned columns and layers, and a block it newly tags is scanned tagged water at or below the sea line, with delta > 0 and override off. |
| ChunkUpdate.UnimpactedColumnUntouched | src/main/java/net/porillo/effect/negative/SeaLevelRise.java:169 | A column whose biome is in the unimpacted set is skipped: each of its blocks is left exactly as it was. |
| ChunkUpdate.ScanFrame | src/main/java/net/porillo/effect/negative/SeaLevelRise.java:167-172 | A pass keeps the set of blocks and changes no block outside the chunk's impacted columns and layers base <= y < max. It changes nothing when max <= base. |
| ChunkUpdate.NoOrganicDrain | src/main/java/net/porillo/effect/negative/SeaLevelRise.java:193-195 | With override off, an untagged falling candidate keeps its material and tag after a pass, for any thresholds. |
| ChunkUpdate.Passes | src/main/java/net/porillo/effect/negative/SeaLevelRise.java:144-146 | The batch's chunk updates, run one after another in sequence order with the same override flag, keep the set of blocks and never change a block that no pass scans. |
| ChunkUpdate.PassesSnoc | src/main/java/net/porillo/effect/negative/SeaLevelRise.java:144-146 | Running one more chunk update after a sequence applies that update to the blocks the sequence left: passes take effect in order. |
| ChunkUpdate.NoOrganicDrainEver | src/main/java/net/porillo/effect/negative/SeaLevelRise.java:143-147 | The same holds over any sequence of passes, with any snapshots and thresholds. |
| ChunkUpdate.RiseRule | src/main/java/net/porillo/effect/negative/SeaLevelRise.java:186-192 | A scanned rising candidate becomes tagged water if y <= sea line, delta > 0 and override is off. Otherwise, tag included, it is unchanged. |
| ChunkUpdate.FallRule | src/main/java/net/porillo/effect/negative/SeaLevelRise.java:193-202 | A scanned falling candidate becomes untagged air if override is on and y != base, or if it is tagged and (y > sea line or delta == 0). Otherwise it is unchanged. |
| ChunkUpdate.OtherRule | src/main/java/net/porillo/effect/negative/SeaLevelRise.java:203-206 | A scanned block in neither category keeps its material and loses its tag. |
| ChunkUpdate.TransitionIdempotent | src/main/java/net/porillo/effect/negative/SeaLevelRise.java:186-206 | Applying the block rule twice with the same thresholds and flag gives the same block as applying it once. This holds whenever WATER is a rising or falling candidate. |
| ChunkUpdate.SecondPassChangesNothing | src/main/java/net/porillo/effect/negative/SeaLevelRise.java:157-210 | A second pass over a chunk with unchanged thresholds and override flag leaves the blocks exactly as the first pass left them. |
| ChunkUpdate.Reversibility | src/main/java/net/porillo/effect/negative/SeaLevelRise.java:193-201 | Tagged water on a scanned layer becomes untagged air on the next pass once delta is 0 or the block is above the sea line (override off). |
| ChunkUpdate.WarmThenCool | src/main/java/net/porillo/effect/negative/SeaLevelRise.java:161-201 | Sea level 62, floor 62, delta 3 then 0, maximum delta 3: air on layers 62-64 becomes tagged water, then reverts to untagged air. Untagged water on layer 61 stays water throughout. |
| Flow.IsSameChunk | src/main/java/net/porillo/effect/negative/SeaLevelRise.java:262-264 | Blocks in the same chunk are less than 16 apart along x and along z; blocks in the same column are always in the same chunk. |
| Flow.FlowDecision | src/main/java/net/porillo/effect/negative/SeaLevelRise.java:235-264 | An untagged source is ignored. Otherwise the flow is cancelled iff override is on, or it is level with y strictly between sea line and maximum, or it crosses a chunk boundary. In every other case the destination is tagged, and only within one chunk. |
| Flow.FlowContainment | src/main/java/net/porillo/effect/negative/SeaLevelRise.java:245-247 | A sideways flow of tagged water one layer above the sea line and below the maximum is cancelled, with override on or off. |
| Flow.SeaLineFlowAgainstFloor | src/main/java/net/porillo/effect/negative/SeaLevelRise.java:241-251 | With override off, a sideways flow of tagged water on the updater's sea line, inside a chunk and below the top layer, is cancelled iff the floor is at or above the world's sea level. Otherwise the destination is tagged. |
| Flow.SeaLineFlowAtTop | src/main/java/net/porillo/effect/negative/SeaLevelRise.java:241-257 | On the updater's top scanned layer (sea line == maximum - 1), a sideways flow of tagged water inside a chunk, with override off, tags its destination whatever the floor. |
| Flow.SameChunkAsSnapshot | src/main/java/net/porillo/effect/negative/SeaLevelRise.java:262-264 | Two blocks are in the same chunk iff the second (taken in the first's world) lies in the snapshot chunk that holds the first. |
| Flow.ApplyFlow | src/main/java/net/porillo/effect/negative/SeaLevelRise.java:254-258 | After a flow decision the tags change only at the destination: its tag is set when the decision is to tag it, otherwise kept. No block's material changes in the handler. |
| Flow.ClearTag | src/main/java/net/porillo/effect/negative/SeaLevelRise.java:216-218 | Releasing ownership of a block clears its tag, keeps its material, and changes no other block. |
| RequestQueue.Refill | src/main/java/net/porillo/effect/negative/SeaLevelRise.java:106-117 | Every snapshot a refill appends is a loaded chunk of an eligible world (NORMAL environment, effect enabled). |
| RequestQueue.RefillAppend | src/main/java/net/porillo/effect/negative/SeaLevelRise.java:106-117 | A refill over a list of worlds appends the first part's snapshots, then the rest's: world order is kept. |
| RequestQueue.RefillMembers | src/main/java/net/porillo/effect/negative/SeaLevelRise.java:106-117 | A snapshot is appended iff some NORMAL-environment world with the effect enabled has it among its loaded chunks. |
| RequestQueue.RefillLength | src/main/java/net/porillo/effect/negative/SeaLevelRise.java:113-115 | A refill appends exactly one snapshot per loaded chunk of each eligible world. |
| RequestQueue.BatchSize | src/main/java/net/porillo/effect/negative/SeaLevelRise.java:136-138 | A drain takes no more than the queue holds and no more than chunksPerPeriod. It takes all of the queue or exactly chunksPerPeriod (none when that is negative). |
| SeaLevelRiseEffect.PassesFor | src/main/java/net/porillo/effect/negative/SeaLevelRise.java:143-147 | A batch performs one pass per snapshot, in batch order; the pass for each snapshot uses the updater's thresholds computed from that snapshot's world sea level and delta. |
| SeaLevelRiseEffect.SeaLevelRise.constructor | src/main/java/net/porillo/effect/negative/SeaLevelRise.java:92-95 | A new effect has an empty queue and override off. |
| SeaLevelRiseEffect.SeaLevelRise.SetOverride | src/main/java/net/porillo/effect/negative/SeaLevelRise.java:57 | Sets the override (repair) flag and nothing else. |
| SeaLevelRiseEffect.SeaLevelRise.LoadQueue | src/main/java/net/porillo/effect/negative/SeaLevelRise.java:104-119 | A non-empty queue is left unchanged. An empty one receives exactly the refill for the given worlds, in order. No other field changes. |
| SeaLevelRiseEffect.SeaLevelRise.DebounceChunkUpdates | src/main/java/net/porillo/effect/negative/SeaLevelRise.java:132-147 | The first min(queue length, chunksPerPeriod) snapshots are applied in FIFO order to the live blocks, and the queue keeps exactly the remaining suffix. An empty queue changes nothing. |
| SeaLevelRiseEffect.SeaLevelRise.UpdateChunk | src/main/java/net/porillo/effect/negative/SeaLevelRise.java:157-210 | The triple loop leaves the live blocks exactly as one ChunkPass with the updater's thresholds and the current override flag. |
| SeaLevelRiseEffect.SeaLevelRise.OnBlockFromTo | src/main/java/net/porillo/effect/negative/SeaLevelRise.java:235-260 | Reports cancellation exactly when FlowDecision (with the flow thresholds and the source's tag) says Cancelled. Otherwise it changes the blocks as ApplyFlow says. |
| SeaLevelRiseEffect.SeaLevelRise.OnBlockPlace | src/main/java/net/porillo/effect/negative/SeaLevelRise.java:216-218 | Only the tag of the placed block is cleared. |
| SeaLevelRiseEffect.SeaLevelRise.OnPlayerBucketEmpty | src/main/java/net/porillo/effect/negative/SeaLevelRise.java:225-228 | Only the tag of the block next to the clicked one, on the clicked face, is cleared. |

## Left out

- Scheduling and concurrency: the two repeating tasks, their periods (`queueTicks`, `chunkTicks`) and the `synchronized` blocks (which lock different monitors) are not modelled. Each method is one run of its task, executed atomically.
- Distribution evaluation and its floating-point value: `delta` and `maxDelta` are the already-cast `int` inputs. The temperature lookup is replaced by these inputs.
- Java `int` overflow in `minSeaLevel + delta` and `minSeaLevel + maxDelta`: integers are unbounded; realistic sea levels and deltas are far from the 32-bit limits.
- World and climate-engine lookups, with their possible `null` results: a processed snapshot's world is given as a `WorldReading` (sea level and delta) through a total function. The loader's `wce != null && isEffectEnabled` check is the `effectEnabled` flag.
- `ChunkSorter.sortByDistance`, `getLoadedChunks` and `getChunkSnapshot`: each `LoadedWorld` carries its snapshots already in distance order.
- Building the material and biome tables by matching enum names: the tables are abstract sets (`Tables`). Some lemmas require only what the listed constants give (AIR floodable; WATER drainable and not floodable).
- JSON configuration loading and the fallback to unregistering on errors: the constructor takes the floor and batch size directly.
- Block physics triggered by `setType(..., true)`: flows it causes arrive as separate flow events.
- Bukkit metadata: the ownership tag is a boolean per block. A location outside the world's stored blocks has no block, so writes to it are skipped.
- Block faces other than the six axis directions (the diagonals and SELF) in `getRelative`.
- The fluid the world writes into the destination of an uncancelled flow event: `ApplyFlow` and `OnBlockFromTo` model only the handler, which sets or keeps ownership tags. The new water arrives as a later block change, outside the handler.
