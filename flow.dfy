/**
 * The Flow Propagation Controller and the tag-clearing hooks: what happens
 * when the world lets a block flow into a neighbour, and when a block is
 * placed or a bucket is emptied.
 */
module Flow {
  import opened Levels
  import opened Blocks

  /** Whether two blocks lie in the same chunk: equal chunk X and chunk Z. */
  predicate IsSameChunk(one: Loc, two: Loc): (same: bool)
    ensures same ==> Abs(one.x - two.x) < 16 && Abs(one.z - two.z) < 16
    ensures one.x == two.x && one.z == two.z ==> same
  {
    ChunkCoord(one.x) == ChunkCoord(two.x) && ChunkCoord(one.z) == ChunkCoord(two.z)
  }

  /** What a flow event leads to: nothing (the source is not the effect's),
      the flow is cancelled, or the flow goes ahead and its destination is
      tagged. */
  datatype FlowOutcome = Ignored | Cancelled | TagDestination

  /** The decision of the flow handler for a flow from `source` to `dest`,
      following its sequence of checks: repair in progress, then a sideways
      flow strictly between the sea line and the maximum, then a chunk
      boundary. */
  function FlowDecision(sourceTagged: bool, isOverride: bool, source: Loc, dest: Loc, t: Thresholds): (r: FlowOutcome)
    ensures r == Ignored <==> !sourceTagged
    ensures r == Cancelled <==>
      sourceTagged &&
      (isOverride || (source.y == dest.y && t.custom < source.y < t.max) || !IsSameChunk(source, dest))
    ensures r == TagDestination ==> !isOverride && IsSameChunk(source, dest)
  {
    if !sourceTagged then Ignored
    else
      var fixedByRepair := isOverride;
      var fixedByLevel := source.y == dest.y && source.y > t.custom && source.y < t.max;
      var fixedByChunk := !IsSameChunk(source, dest);
      if fixedByRepair || fixedByLevel || fixedByChunk then Cancelled else TagDestination
  }

  /** Flow containment: a tagged block strictly between the sea line and the
      maximum may not spread sideways, whether or not repair is in progress. */
  lemma FlowContainment(isOverride: bool, source: Loc, dest: Loc, t: Thresholds)
    requires source.y == t.custom + 1 && source.y < t.max && dest.y == source.y
    ensures FlowDecision(true, isOverride, source, dest, t) == Cancelled
  {
  }

  /** Because the flow handler's base is one lower than the updater's when
      the floor is at or above the world's sea level, a sideways flow of tagged
      water on the updater's sea line, inside one chunk and below the top
      layer, is cancelled with override off exactly in that configuration.
      (With override on, every flow of tagged water is cancelled.) */
  lemma SeaLineFlowAgainstFloor(worldSeaLevel: int, baseSeaLevel: int, delta: int, maxDelta: int, source: Loc, dest: Loc)
    requires source.y == dest.y == ChunkThresholds(worldSeaLevel, baseSeaLevel, delta, maxDelta).custom
    requires source.y < ChunkThresholds(worldSeaLevel, baseSeaLevel, delta, maxDelta).max - 1
    requires IsSameChunk(source, dest)
    ensures FlowDecision(true, false, source, dest, FlowThresholds(worldSeaLevel, baseSeaLevel, delta, maxDelta)) ==
            (if baseSeaLevel >= worldSeaLevel then Cancelled else TagDestination)
  {
    FlowBaseAgainstChunkBase(worldSeaLevel, baseSeaLevel, delta, maxDelta);
  }

  /** On the updater's top scanned layer (the sea line one below the
      maximum) the containment above does not reach: with override off, a
      sideways flow of tagged water inside one chunk tags its destination,
      wherever the floor lies. */
  lemma SeaLineFlowAtTop(worldSeaLevel: int, baseSeaLevel: int, delta: int, maxDelta: int, source: Loc, dest: Loc)
    requires source.y == dest.y == ChunkThresholds(worldSeaLevel, baseSeaLevel, delta, maxDelta).custom
    requires source.y == ChunkThresholds(worldSeaLevel, baseSeaLevel, delta, maxDelta).max - 1
    requires IsSameChunk(source, dest)
    ensures FlowDecision(true, false, source, dest, FlowThresholds(worldSeaLevel, baseSeaLevel, delta, maxDelta)) == TagDestination
  {
    FlowBaseAgainstChunkBase(worldSeaLevel, baseSeaLevel, delta, maxDelta);
  }

  /** Two blocks are in the same chunk exactly when the second, taken in the
      first's world, lies in a chunk snapshot's chunk that holds the first. */
  lemma SameChunkAsSnapshot(s: Snapshot, p: Loc, q: Loc)
    requires InChunk(s, p)
    ensures IsSameChunk(p, q) <==> InChunk(s, q.(world := s.world))
  {
    InChunkByCoord(s, p);
    InChunkByCoord(s, q.(world := s.world));
  }

  /** The ownership tags after a flow decision: only a tagged destination
      changes, and only its tag. The fluid the world then writes into an
      uncancelled destination is not part of the handler. */
  function ApplyFlow(outcome: FlowOutcome, dest: Loc, cells: map<Loc, Cell>): (r: map<Loc, Cell>)
    ensures r.Keys == cells.Keys
    ensures forall p :: p in cells && p != dest ==> r[p] == cells[p]
    ensures dest in cells ==>
      r[dest].material == cells[dest].material &&
      r[dest].tagged == (cells[dest].tagged || outcome == TagDestination)
  {
    if outcome == TagDestination && dest in cells then cells[dest := cells[dest].(tagged := true)] else cells
  }

  /** The live blocks after an external edit releases ownership of `p`: only
      the tag of `p` changes, and it is cleared. */
  function ClearTag(cells: map<Loc, Cell>, p: Loc): (r: map<Loc, Cell>)
    ensures r.Keys == cells.Keys
    ensures forall q :: q in cells && q != p ==> r[q] == cells[q]
    ensures p in cells ==> r[p].material == cells[p].material && !r[p].tagged
  {
    if p in cells then cells[p := cells[p].(tagged := false)] else cells
  }
}
