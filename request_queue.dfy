/**
 * The Snapshot Queue's refill and drain: which snapshots a refill appends and
 * how many snapshots a drain takes.
 */
module RequestQueue {
  import opened Blocks

  datatype Environment = Normal | Nether | TheEnd

  /** A world as the queue loader sees it: its environment, whether its climate
      engine exists and has the sea-level effect enabled, and one snapshot per
      loaded chunk, already ordered by distance to the world's players. */
  datatype LoadedWorld = LoadedWorld(environment: Environment, effectEnabled: bool, chunks: seq<Snapshot>)

  predicate Eligible(w: LoadedWorld)
  {
    w.environment == Normal && w.effectEnabled
  }

  /** The snapshots one refill appends for `worlds`, in order. */
  function Refill(worlds: seq<LoadedWorld>): (r: seq<Snapshot>)
    ensures forall s :: s in r ==> exists i :: 0 <= i < |worlds| && Eligible(worlds[i]) && s in worlds[i].chunks
    decreases |worlds|
  {
    if worlds == [] then []
    else
      var last := worlds[|worlds| - 1];
      Refill(worlds[..|worlds| - 1]) + (if Eligible(last) then last.chunks else [])
  }

  /** A refill for a list of worlds is the refill for its first part followed
      by the refill for the rest. */
  lemma {:induction false} RefillAppend(first: seq<LoadedWorld>, rest: seq<LoadedWorld>)
    ensures Refill(first + rest) == Refill(first) + Refill(rest)
    decreases |rest|
  {
    if rest == [] {
      assert first + rest == first;
    } else {
      var last := rest[|rest| - 1];
      assert (first + rest)[..|first + rest| - 1] == first + rest[..|rest| - 1];
      RefillAppend(first, rest[..|rest| - 1]);
    }
  }

  /** A refill appends exactly the chunks of the eligible worlds: a snapshot
      is appended iff some eligible world has it among its loaded chunks. */
  lemma {:induction false} RefillMembers(worlds: seq<LoadedWorld>, s: Snapshot)
    ensures s in Refill(worlds) <==>
      exists i :: 0 <= i < |worlds| && Eligible(worlds[i]) && s in worlds[i].chunks
    decreases |worlds|
  {
    if worlds != [] {
      var n := |worlds| - 1;
      RefillMembers(worlds[..n], s);
      assert forall i :: 0 <= i < n ==> worlds[..n][i] == worlds[i];
      if s in Refill(worlds) && s !in Refill(worlds[..n]) {
        assert Eligible(worlds[n]) && s in worlds[n].chunks;
      }
    }
  }

  /** A refill appends one snapshot per loaded chunk of each eligible world. */
  lemma {:induction false} RefillLength(worlds: seq<LoadedWorld>)
    ensures |Refill(worlds)| == ChunkCount(worlds)
    decreases |worlds|
  {
    if worlds != [] {
      assert worlds == [worlds[0]] + worlds[1..];
      RefillAppend([worlds[0]], worlds[1..]);
      assert Refill([worlds[0]]) == Refill([]) + (if Eligible(worlds[0]) then worlds[0].chunks else []);
      RefillLength(worlds[1..]);
    }
  }

  /** The number of loaded chunks of the eligible worlds among `worlds`. */
  function ChunkCount(worlds: seq<LoadedWorld>): nat
    decreases |worlds|
  {
    if worlds == [] then 0
    else (if Eligible(worlds[0]) then |worlds[0].chunks| else 0) + ChunkCount(worlds[1..])
  }

  /** How many snapshots a drain takes from a queue of `queueLength`: as many
      as the queue holds, but no more than `chunksPerPeriod` (none when that
      is zero or negative). */
  function BatchSize(queueLength: nat, chunksPerPeriod: int): (k: nat)
    ensures k <= queueLength
    ensures k <= chunksPerPeriod || k == 0
    ensures k == queueLength || k == chunksPerPeriod || (k == 0 && chunksPerPeriod < 0)
  {
    if chunksPerPeriod <= 0 then 0
    else if queueLength <= chunksPerPeriod then queueLength
    else chunksPerPeriod
  }
}
